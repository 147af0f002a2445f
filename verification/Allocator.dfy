/** How the load generator spreads transactions over its accounts. */
module Allocator {
  import opened Prelude

  datatype Assignment = Assignment(account: nat, nonce: nat)

  /** The first of the least loaded accounts that are still below the limit. */
  function LeastLoaded(counts: seq<nat>, max: nat): (r: Option<nat>)
    ensures r.None? <==> forall i :: 0 <= i < |counts| ==> counts[i] >= max
    ensures r.Some? ==> r.value < |counts| && counts[r.value] < max
    ensures r.Some? ==> forall i :: 0 <= i < |counts| ==> counts[r.value] <= counts[i]
    ensures r.Some? ==> forall i :: 0 <= i < r.value ==> counts[r.value] < counts[i]
  {
    if counts == [] then None
    else
      var front, last := counts[..|counts| - 1], counts[|counts| - 1];
      match LeastLoaded(front, max)
      case None => if last < max then Some(|counts| - 1) else None
      case Some(j) => if last < front[j] then Some(|counts| - 1) else Some(j)
  }

  /** How many of the first `n` transactions account `j` of `k` has. */
  function Load(n: nat, k: nat, j: nat): (l: nat)
    requires j < k
  {
    n / k + if j < n % k then 1 else 0
  }

  lemma Next(n: nat, k: nat)
    requires k > 0
    ensures n % k < k - 1 ==> (n + 1) / k == n / k && (n + 1) % k == n % k + 1
    ensures n % k == k - 1 ==> (n + 1) / k == n / k + 1 && (n + 1) % k == 0
  {
    var q, r := n / k, n % k;
    assert n == q * k + r;
    if r < k - 1 {
      Quotient(n + 1, k, q, r + 1);
    } else {
      assert n + 1 == (q + 1) * k;
      Quotient(n + 1, k, q + 1, 0);
    }
  }

  lemma {:induction false} NextMultiple(a: nat, b: nat, k: nat)
    ensures a < b ==> a * k + k <= b * k
  {
    if a + 1 < b {
      NextMultiple(a, b - 1, k);
      assert b * k == (b - 1) * k + k;
    } else if a + 1 == b {
      assert b * k == a * k + k;
    }
  }

  /** Numbers written in base `k` are ordered by their digits. */
  lemma DigitOrder(k: nat, q: nat, r: nat, c: nat, j: nat)
    requires r < k && j < k
    ensures c * k + j < q * k + r <==> c < q || (c == q && j < r)
  {
    NextMultiple(c, q, k);
    NextMultiple(q, c, k);
  }

  lemma Quotient(n: nat, k: nat, q: nat, r: nat)
    requires k > 0 && n == q * k + r && r < k
    ensures n / k == q && n % k == r
  {
    DigitOrder(k, q, r, n / k, n % k);
    DigitOrder(k, n / k, n % k, q, r);
    assert n == (n / k) * k + n % k;
  }

  /** With balanced loads the search finds account `n mod k`, unless all are full. */
  lemma SearchFinds(counts: seq<nat>, n: nat, max: nat)
    requires |counts| > 0 && forall j :: 0 <= j < |counts| ==> counts[j] == Load(n, |counts|, j)
    ensures n < |counts| * max ==> LeastLoaded(counts, max) == Some(n % |counts|)
    ensures n == |counts| * max ==> LeastLoaded(counts, max).None?
  {
    var k := |counts|;
    var q, r := n / k, n % k;
    assert n == q * k + r;
    DigitOrder(k, max, 0, q, r);
    if n < k * max {
      assert counts[r] == q < max;
    } else if n == k * max {
      Quotient(n, k, max, 0);
    }
  }

  predicate Assigned(a: Assignment, base: seq<nat>, i: nat) {
    |base| > 0 && a == Assignment(i % |base|, base[i % |base|] + i / |base|)
  }

  /** Gives transaction `i` to account `i mod k` with nonce `base + i div k`; the search
      fails exactly when there are more transactions than the accounts may take. */
  method Assign(base: seq<nat>, numTxs: nat, max: nat) returns (r: Option<seq<Assignment>>)
    ensures r.Some? <==> numTxs <= |base| * max
    ensures r.Some? ==> |r.value| == numTxs
    ensures r.Some? ==> forall i :: 0 <= i < numTxs ==> Assigned(r.value[i], base, i)
  {
    var k := |base|;
    var counts := new nat[k](_ => 0);
    var assignments: seq<Assignment> := [];
    for i := 0 to numTxs
      invariant i <= k * max && |assignments| == i
      invariant forall j :: 0 <= j < k ==> counts[j] == Load(i, k, j)
      invariant forall j :: 0 <= j < i ==> Assigned(assignments[j], base, j)
    {
      if k > 0 {
        SearchFinds(counts[..], i, max);
        Next(i, k);
      }
      var found := LeastLoaded(counts[..], max);
      if found.None? {
        return None;
      }
      var account := found.value;
      var nonce := base[account] + counts[account];
      assignments := assignments + [Assignment(account, nonce)];
      counts[account] := counts[account] + 1;
    }
    return Some(assignments);
  }

  /** The number of accounts the generator creates: the quotient, rounded up. */
  function AccountsNeeded(numTxs: nat, max: nat): (k: nat)
    requires max > 0
  {
    numTxs / max + if numTxs % max > 0 then 1 else 0
  }

  /** That many accounts are enough, and no fewer are. */
  lemma AccountsSuffice(numTxs: nat, max: nat, k: nat)
    requires max > 0
    ensures numTxs <= k * max <==> AccountsNeeded(numTxs, max) <= k
  {
    assert numTxs == numTxs / max * max + numTxs % max;
    DigitOrder(max, numTxs / max, numTxs % max, k, 0);
  }

  /** Loads differ by at most one, and none is over the limit. */
  lemma LoadsAreEven(n: nat, k: nat, max: nat, a: nat, b: nat)
    requires a < k && b < k && n <= k * max
    ensures Load(n, k, a) <= Load(n, k, b) + 1
    ensures Load(n, k, a) <= max
  {
    assert n == n / k * k + n % k;
    DigitOrder(k, n / k, n % k, max, 0);
  }

  /** Account `j` uses the nonces from its base on without a gap: nonce `base + c` is used
      iff `c` is below its load, by exactly one transaction. */
  lemma NoncesHaveNoGaps(n: nat, k: nat, j: nat, c: nat, t: nat)
    requires j < k
    ensures t < n && t % k == j && t / k == c <==> c < Load(n, k, j) && t == c * k + j
  {
    assert n == n / k * k + n % k && t == t / k * k + t % k;
    DigitOrder(k, n / k, n % k, c, j);
    if t == c * k + j {
      Quotient(t, k, c, j);
    }
  }
}
