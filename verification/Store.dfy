/** The message store: a list kept sorted by (height, round, kind, author), with at most
    one message per key. */
module Store {
  import opened Types

  ghost predicate Sorted(ms: seq<Message>) {
    forall i, j :: 0 <= i < j < |ms| ==> ms[i].SortKey().Less(ms[j].SortKey())
  }

  predicate HasKey(ms: seq<Message>, k: Key) {
    exists m :: m in ms && m.SortKey() == k
  }

  /** Where a binary search for `k` would insert. */
  function LowerBound(ms: seq<Message>, k: Key): (i: nat)
    ensures i <= |ms|
    ensures forall j :: 0 <= j < i ==> ms[j].SortKey().Less(k)
    ensures i < |ms| ==> !ms[i].SortKey().Less(k)
  {
    if ms == [] || !ms[0].SortKey().Less(k) then 0 else 1 + LowerBound(ms[1..], k)
  }

  /** Inserts in order, unless the key is already present. */
  function Insert(ms: seq<Message>, m: Message): (r: seq<Message>)
    ensures forall x :: x in r <==> x in ms || (x == m && !HasKey(ms, m.SortKey()))
    ensures HasKey(r, m.SortKey())
  {
    if HasKey(ms, m.SortKey()) then ms
    else
      var i := LowerBound(ms, m.SortKey());
      var r := ms[..i] + [m] + ms[i..];
      assert m in r;
      r
  }

  lemma InsertKeepsSorted(ms: seq<Message>, m: Message)
    requires Sorted(ms)
    ensures Sorted(Insert(ms, m))
  {
    if !HasKey(ms, m.SortKey()) {
      var i := LowerBound(ms, m.SortKey());
      LaterAreGreater(ms, m, i);
      SplicedIsSorted(ms, m, i);
    }
  }

  lemma LaterAreGreater(ms: seq<Message>, m: Message, i: nat)
    requires Sorted(ms) && !HasKey(ms, m.SortKey()) && i == LowerBound(ms, m.SortKey())
    ensures forall j :: i <= j < |ms| ==> m.SortKey().Less(ms[j].SortKey())
  {
    forall j | i <= j < |ms| ensures m.SortKey().Less(ms[j].SortKey()) {
      assert ms[j] in ms;
      if i < j {
        assert ms[i].SortKey().Less(ms[j].SortKey());
      }
    }
  }

  lemma SplicedIsSorted(ms: seq<Message>, m: Message, i: nat)
    requires Sorted(ms) && i <= |ms|
    requires forall j :: 0 <= j < i ==> ms[j].SortKey().Less(m.SortKey())
    requires forall j :: i <= j < |ms| ==> m.SortKey().Less(ms[j].SortKey())
    ensures Sorted(ms[..i] + [m] + ms[i..])
  {
    var r := ms[..i] + [m] + ms[i..];
    assert forall j :: 0 <= j < i ==> r[j] == ms[j];
    assert r[i] == m;
    assert forall j :: i < j < |r| ==> r[j] == ms[j - 1];
  }

  /** One message per key. */
  lemma SortedHasUniqueKeys(ms: seq<Message>, a: Message, b: Message)
    requires Sorted(ms)
    requires a in ms && b in ms && a.SortKey() == b.SortKey()
    ensures a == b
  {
    var i :| 0 <= i < |ms| && ms[i] == a;
    var j :| 0 <= j < |ms| && ms[j] == b;
  }

  lemma SortedSlice(ms: seq<Message>, lo: nat, hi: nat)
    requires Sorted(ms) && lo <= hi <= |ms|
    ensures Sorted(ms[lo..hi])
  {
  }

  /** The number of leading messages below height `h`. */
  function BelowHeight(ms: seq<Message>, h: nat): (i: nat)
    ensures i <= |ms|
    ensures forall j :: 0 <= j < i ==> ms[j].Height() < h
    ensures i < |ms| ==> ms[i].Height() >= h
  {
    if ms == [] || ms[0].Height() >= h then 0 else 1 + BelowHeight(ms[1..], h)
  }

  /** The number of leading messages below round `r`. */
  function BelowRound(ms: seq<Message>, r: nat): (i: nat)
    ensures i <= |ms|
    ensures forall j :: 0 <= j < i ==> ms[j].Round() < r
    ensures i < |ms| ==> ms[i].Round() >= r
  {
    if ms == [] || ms[0].Round() >= r then 0 else 1 + BelowRound(ms[1..], r)
  }

  lemma BelowRoundMonotone(ms: seq<Message>, r: nat)
    ensures BelowRound(ms, r) <= BelowRound(ms, r + 1)
  {
  }

  /** On a sorted list the cut is exact: everything from it on is at height `h` or above. */
  lemma SortedCut(ms: seq<Message>, h: nat)
    requires Sorted(ms)
    ensures forall j :: BelowHeight(ms, h) <= j < |ms| ==> ms[j].Height() >= h
  {
    var i := BelowHeight(ms, h);
    forall j | i <= j < |ms| ensures ms[j].Height() >= h {
      if i < j {
        assert ms[i].SortKey().Less(ms[j].SortKey());
      }
    }
  }

  /** The same for rounds, on messages of one height. */
  lemma SortedRoundCut(ms: seq<Message>, h: nat, r: nat)
    requires Sorted(ms) && forall m :: m in ms ==> m.Height() == h
    ensures forall j :: BelowRound(ms, r) <= j < |ms| ==> ms[j].Round() >= r
  {
    var i := BelowRound(ms, r);
    forall j | i <= j < |ms| ensures ms[j].Round() >= r {
      assert ms[i] in ms && ms[j] in ms;
      if i < j {
        assert ms[i].SortKey().Less(ms[j].SortKey());
      }
    }
  }

  /** What is left above height `h` after dropping the messages below it: the messages of
      height `h` come first, and all of them are there. */
  lemma PrunedPrefix(ms: seq<Message>, h: nat)
    requires Sorted(ms)
    ensures var kept := ms[BelowHeight(ms, h)..];
            var n := BelowHeight(kept, h + 1);
            && (forall m :: m in kept[..n] ==> m.Height() == h)
            && (forall m :: m in ms && m.Height() == h ==> m in kept[..n])
  {
    var cut := BelowHeight(ms, h);
    var kept := ms[cut..];
    SortedCut(ms, h);
    SortedSlice(ms, cut, |ms|);
    forall m | m in ms && m.Height() == h ensures m in kept {
      var j :| 0 <= j < |ms| && ms[j] == m;
      assert kept[j - cut] == m;
    }
    LowestFirst(kept, h);
  }

  lemma LowestFirst(ms: seq<Message>, h: nat)
    requires Sorted(ms) && forall i :: 0 <= i < |ms| ==> ms[i].Height() >= h
    ensures var n := BelowHeight(ms, h + 1);
            && (forall m :: m in ms[..n] ==> m.Height() == h)
            && (forall m :: m in ms && m.Height() == h ==> m in ms[..n])
  {
    var n := BelowHeight(ms, h + 1);
    SortedCut(ms, h + 1);
    forall m | m in ms && m.Height() == h ensures m in ms[..n] {
      var j :| 0 <= j < |ms| && ms[j] == m;
      assert ms[..n][j] == m;
    }
  }
}
