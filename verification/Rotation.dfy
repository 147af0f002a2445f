/** Leader rotation over consecutive rounds of one height. */
module Rotation {
  import opened Prelude
  import opened Types
  import opened Validators

  /** The leaders of `count` consecutive rounds from `start`. */
  function Leaders(chain: Chain, start: nat, count: nat): (ls: seq<Address>)
    ensures |ls| == count
    ensures forall i :: 0 <= i < count ==> ls[i] == Proposer(start + i, chain)
  {
    if count == 0 then [] else Leaders(chain, start, count - 1) + [Proposer(start + (count - 1), chain)]
  }

  lemma ModInjective(a: nat, b: nat, n: nat)
    requires n > 0 && a < b < a + n
    ensures a % n != b % n
  {
    if a % n == b % n {
      var qa, qb := a / n, b / n;
      assert a == qa * n + a % n && b == qb * n + b % n;
      assert b - a == (qb - qa) * n;
      MultipleTooBig(qb - qa, n);
    }
  }

  lemma MultipleTooBig(q: int, n: nat)
    requires n > 0
    ensures q * n <= 0 || q * n >= n
  {
    if q >= 1 {
      assert q * n == n + (q - 1) * n;
    }
  }

  /** Within any window of at most `n` rounds nobody leads twice. */
  lemma NobodyLeadsTwice(chain: Chain, start: nat, count: nat)
    requires Distinct(chain.Validators()) && 0 < |chain.Validators()| && count <= |chain.Validators()|
    ensures Distinct(Leaders(chain, start, count))
  {
    var ls, vs := Leaders(chain, start, count), chain.Validators();
    forall i, j | 0 <= i < j < |ls|
      ensures ls[i] != ls[j]
    {
      var z := RoundZeroIndex(chain);
      ModInjective(z + (start + i), z + (start + j), |vs|);
    }
  }

  /** Any `n` consecutive rounds give each validator the lead in exactly one of them,
      whatever the chain's head. */
  lemma EveryoneLeadsOnce(chain: Chain, start: nat, a: Address)
    requires Distinct(chain.Validators()) && a in chain.Validators()
    ensures exists i :: 0 <= i < |chain.Validators()| && Leaders(chain, start, |chain.Validators()|)[i] == a
    ensures Distinct(Leaders(chain, start, |chain.Validators()|))
  {
    var vs := chain.Validators();
    var ls := Leaders(chain, start, |vs|);
    NobodyLeadsTwice(chain, start, |vs|);
    ElementsCardinality(ls);
    ElementsCardinality(vs);
    LeadersAreValidators(chain, start, |vs|);
    SubsetOfSameSize(Elements(ls), Elements(vs));
    assert a in Elements(ls);
  }

  lemma LeadersAreValidators(chain: Chain, start: nat, count: nat)
    requires 0 < |chain.Validators()|
    ensures Elements(Leaders(chain, start, count)) <= Elements(chain.Validators())
  {
    var ls := Leaders(chain, start, count);
    forall x | x in ls
      ensures x in chain.Validators()
    {
      var i :| 0 <= i < |ls| && ls[i] == x;
      assert ls[i] == Proposer(start + i, chain);
    }
  }

  /** Any `f(n) + 1` consecutive rounds include a leader outside any set of `f(n)`
      validators. */
  lemma SomeLeaderIsHonest(chain: Chain, start: nat, faulty: set<Address>)
    requires Distinct(chain.Validators()) && 0 < |chain.Validators()|
    requires |faulty| <= MaxFaulty(|chain.Validators()|)
    ensures exists r :: start <= r <= start + MaxFaulty(|chain.Validators()|)
                        && Proposer(r, chain) in chain.Validators() && Proposer(r, chain) !in faulty
  {
    var f := MaxFaulty(|chain.Validators()|);
    var ls := Leaders(chain, start, f + 1);
    NobodyLeadsTwice(chain, start, f + 1);
    ElementsCardinality(ls);
    if Elements(ls) <= faulty {
      SubsetCardinality(Elements(ls), faulty);
      assert false;
    }
    var x :| x in Elements(ls) && x !in faulty;
    var i :| 0 <= i < |ls| && ls[i] == x;
    assert ls[i] == Proposer(start + i, chain);
  }

  /** The bound is tight: `f(n)` faulty validators can hold the lead for `f(n)` rounds. */
  lemma FaultyCanLead(chain: Chain, start: nat) returns (faulty: set<Address>)
    requires Distinct(chain.Validators()) && 0 < |chain.Validators()|
    ensures faulty <= Elements(chain.Validators()) && |faulty| == MaxFaulty(|chain.Validators()|)
    ensures forall r :: start <= r < start + MaxFaulty(|chain.Validators()|) ==> Proposer(r, chain) in faulty
  {
    var f := MaxFaulty(|chain.Validators()|);
    var ls := Leaders(chain, start, f);
    NobodyLeadsTwice(chain, start, f);
    ElementsCardinality(ls);
    LeadersAreValidators(chain, start, f);
    faulty := Elements(ls);
    forall r | start <= r < start + f
      ensures Proposer(r, chain) in faulty
    {
      assert ls[r - start] == Proposer(start + (r - start), chain);
    }
  }
}
