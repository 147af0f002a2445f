/** The hash-seeded choice of a validator subset. Seeds are abstract: how a seed gives an
    index and how it is rehashed are arbitrary functions. */
module Selection {
  import opened Prelude
  import opened Types

  datatype Seeds<!S> = Seeds(first: S, index: S -> nat, rehash: (S, nat) -> S)

  /** The chosen indices, the ones still available and the current seed. */
  datatype Draw<S> = Draw(chosen: seq<nat>, available: seq<nat>, seed: S)

  function Range(n: nat): (r: seq<nat>)
    ensures |r| == n
  {
    if n == 0 then [] else Range(n - 1) + [n - 1]
  }

  lemma {:induction false} RangeAt(n: nat, i: nat)
    requires i < n
    ensures Range(n)[i] == i
  {
    if i < n - 1 {
      RangeAt(n - 1, i);
    }
  }

  function RemoveAt<T>(s: seq<T>, i: nat): (r: seq<T>)
    requires i < |s|
    ensures |r| == |s| - 1
    ensures multiset(r) + multiset{s[i]} == multiset(s)
  {
    assert s == s[..i] + [s[i]] + s[i + 1..];
    s[..i] + s[i + 1..]
  }

  /** The draw after `i` of `max` turns. */
  function DrawAfter<S>(seeds: Seeds<S>, n: nat, max: nat, i: nat): (d: Draw<S>)
    requires i <= max < n
    ensures |d.chosen| == i && |d.available| == n - i
    ensures multiset(d.chosen) + multiset(d.available) == multiset(Range(n))
  {
    if i == 0 then Draw([], Range(n), seeds.first)
    else
      var d := DrawAfter(seeds, n, max, i - 1);
      var idx := seeds.index(d.seed) % |d.available|;
      Draw(d.chosen + [d.available[idx]], RemoveAt(d.available, idx),
           if i < max then seeds.rehash(d.seed, i - 1) else d.seed)
  }

  lemma {:induction false} RangeIsDistinct(n: nat, x: nat)
    ensures multiset(Range(n))[x] == if x < n then 1 else 0
  {
    if n > 0 {
      RangeIsDistinct(n - 1, x);
      assert Range(n) == Range(n - 1) + [n - 1];
    }
  }

  /** Chosen and available indices split the original ones: each is in exactly one of the
      two, once. */
  lemma DrawIsPartition<S>(seeds: Seeds<S>, n: nat, max: nat, i: nat, x: nat)
    requires i <= max < n
    ensures var d := DrawAfter(seeds, n, max, i);
            multiset(d.chosen)[x] + multiset(d.available)[x] == if x < n then 1 else 0
  {
    RangeIsDistinct(n, x);
    var d := DrawAfter(seeds, n, max, i);
    assert (multiset(d.chosen) + multiset(d.available))[x] == multiset(Range(n))[x];
  }

  predicate Increasing(s: seq<nat>) {
    forall i, j :: 0 <= i < j < |s| ==> s[i] < s[j]
  }

  predicate Ordered(s: seq<nat>) {
    forall i, j :: 0 <= i < j < |s| ==> s[i] <= s[j]
  }

  function Place(s: seq<nat>, x: nat): (r: seq<nat>)
    requires Ordered(s)
    ensures Ordered(r) && multiset(r) == multiset(s) + multiset{x}
    ensures forall y :: y in r ==> y == x || y in s
  {
    if s == [] then [x]
    else
      var front, last := s[..|s| - 1], s[|s| - 1];
      assert s == front + [last];
      if last <= x then s + [x]
      else
        var r := Place(front, x);
        assert multiset(s) == multiset(front) + multiset{last};
        assert forall i :: 0 <= i < |r| ==> r[i] in r;
        assert forall y :: y in front ==> y in s;
        r + [last]
  }

  /** The same elements in order, as the library's sort leaves them. */
  function Sorted(s: seq<nat>): (r: seq<nat>)
    ensures Ordered(r) && multiset(r) == multiset(s) && |r| == |s|
  {
    if s == [] then []
    else
      var front, last := s[..|s| - 1], s[|s| - 1];
      assert s == front + [last];
      var r := Place(Sorted(front), last);
      assert |multiset(r)| == |r| && |multiset(s)| == |s|;
      r
  }

  lemma RepeatsAreCounted(s: seq<nat>, i: nat, j: nat)
    requires i < j < |s|
    ensures s[i] == s[j] ==> multiset(s)[s[i]] >= 2
  {
    assert s == s[..i] + [s[i]] + s[i + 1..j] + [s[j]] + s[j + 1..];
  }

  lemma OrderedWithoutRepeats(s: seq<nat>)
    requires Ordered(s) && forall x :: multiset(s)[x] <= 1
    ensures Increasing(s)
  {
    forall i, j | 0 <= i < j < |s|
      ensures s[i] < s[j]
    {
      RepeatsAreCounted(s, i, j);
    }
  }

  /** `part` is what `all` holds at the given, strictly increasing indices. */
  predicate PickedBy(part: seq<Address>, all: seq<Address>, indices: seq<nat>) {
    && |part| == |indices| && Increasing(indices)
    && forall i :: 0 <= i < |part| ==> indices[i] < |all| && part[i] == all[indices[i]]
  }

  lemma SortedDraw<S>(seeds: Seeds<S>, n: nat, max: nat)
    requires max < n
    ensures var s := Sorted(DrawAfter(seeds, n, max, max).chosen);
            |s| == max && Increasing(s) && forall i :: 0 <= i < |s| ==> s[i] < n
  {
    var d := DrawAfter(seeds, n, max, max);
    var s := Sorted(d.chosen);
    forall x: nat
      ensures multiset(s)[x] <= (if x < n then 1 else 0)
    {
      DrawIsPartition(seeds, n, max, max, x);
    }
    OrderedWithoutRepeats(s);
    forall i | 0 <= i < |s|
      ensures s[i] < n
    {
      assert s[i] in multiset(s);
      assert multiset(s)[s[i]] <= (if s[i] < n then 1 else 0);
    }
  }

  /** The selection loop: removes an index, records it, rehashes; then sorts. */
  method DrawIndices<S>(seeds: Seeds<S>, n: nat, max: nat) returns (indices: seq<nat>)
    requires max < n
    ensures indices == Sorted(DrawAfter(seeds, n, max, max).chosen)
  {
    var chosen: seq<nat> := [];
    var available := Range(n);
    var seed := seeds.first;
    for i := 0 to max
      invariant Draw(chosen, available, seed) == DrawAfter(seeds, n, max, i)
    {
      var idx := seeds.index(seed) % |available|;
      chosen := chosen + [available[idx]];
      available := RemoveAt(available, idx);
      if i < max - 1 {
        seed := seeds.rehash(seed, i);
      }
    }
    indices := Sorted(chosen);
  }

  method Extract(all: seq<Address>, indices: seq<nat>) returns (part: seq<Address>)
    requires Increasing(indices) && forall i :: 0 <= i < |indices| ==> indices[i] < |all|
    ensures PickedBy(part, all, indices)
  {
    part := [];
    for i := 0 to |indices|
      invariant |part| == i
      invariant forall j :: 0 <= j < i ==> part[j] == all[indices[j]]
    {
      part := part + [all[indices[i]]];
    }
  }

  /** Distinct validators stay distinct. */
  lemma SelectionIsDistinct(part: seq<Address>, all: seq<Address>, indices: seq<nat>)
    requires Distinct(all) && PickedBy(part, all, indices)
    ensures Distinct(part)
  {
  }

  /** Keeps all validators when there are at most `max`, and otherwise an order-preserving
      subsequence of length `max`: the one at the sorted indices of the draw. */
  method Select<S>(all: seq<Address>, max: nat, seeds: Seeds<S>)
    returns (selected: seq<Address>, indices: seq<nat>)
    ensures |selected| == Min(|all|, max) && PickedBy(selected, all, indices)
    ensures |all| <= max ==> selected == all
    ensures |all| > max ==> indices == Sorted(DrawAfter(seeds, |all|, max, max).chosen)
    ensures Distinct(all) ==> Distinct(selected)
  {
    if |all| <= max {
      forall i | 0 <= i < |all|
        ensures Range(|all|)[i] == i
      {
        RangeAt(|all|, i);
      }
      return all, Range(|all|);
    }
    indices := DrawIndices(seeds, |all|, max);
    SortedDraw(seeds, |all|, max);
    selected := Extract(all, indices);
    if Distinct(all) {
      SelectionIsDistinct(selected, all, indices);
    }
  }
}
