/** Small general-purpose definitions shared by the other modules. */
module Prelude {

  datatype Option<+T> = None | Some(value: T)

  function Max(a: nat, b: nat): (m: nat) {
    if a < b then b else a
  }

  function Min(a: nat, b: nat): (m: nat) {
    if a < b then a else b
  }

  /** `saturating_sub` on unsigned machine integers. */
  function Monus(a: nat, b: nat): (d: nat) {
    if a < b then 0 else a - b
  }

  type Byte = x: nat | x < 256

  function Pow256(k: nat): (p: nat)
    ensures p > 0
  {
    if k == 0 then 1 else 256 * Pow256(k - 1)
  }

  /** The number whose big-endian bytes are the first `k` of `bs`. */
  function FromBytes(bs: seq<Byte>, k: nat): (n: nat)
    requires k <= |bs|
  {
    if k == 0 then 0 else FromBytes(bs, k - 1) * 256 + bs[k - 1]
  }

  function FromBigEndian(bs: seq<Byte>): (n: nat) {
    FromBytes(bs, |bs|)
  }

  lemma {:induction false} FromBytesBelow(bs: seq<Byte>, k: nat)
    requires k <= |bs|
    ensures FromBytes(bs, k) < Pow256(k)
  {
    if k > 0 {
      FromBytesBelow(bs, k - 1);
    }
  }

  lemma {:induction false} FromSameBytes(a: seq<Byte>, b: seq<Byte>, k: nat)
    requires k <= |a| && k <= |b| && forall i :: 0 <= i < k ==> a[i] == b[i]
    ensures FromBytes(a, k) == FromBytes(b, k)
  {
    if k > 0 {
      FromSameBytes(a, b, k - 1);
    }
  }

  lemma {:induction false} Pow256Grows(j: nat, k: nat)
    requires j <= k
    ensures Pow256(j) <= Pow256(k)
    decreases k - j
  {
    if j < k {
      Pow256Grows(j + 1, k);
    }
  }

  const U64_MAX: nat := 0xFFFF_FFFF_FFFF_FFFF

  lemma EightBytes()
    ensures Pow256(8) == U64_MAX + 1
  {
    assert Pow256(2) == 0x1_0000;
    assert Pow256(4) == 0x1_0000_0000;
    assert Pow256(6) == 0x1_0000_0000_0000;
  }

  /** The elements of a sequence, as a set. */
  function Elements<T(==)>(s: seq<T>): (r: set<T>) {
    set x | x in s
  }

  predicate Distinct<T(==)>(s: seq<T>) {
    forall i, j :: 0 <= i < j < |s| ==> s[i] != s[j]
  }

  lemma NonEmptyHasElement<T>(s: seq<T>)
    ensures s != [] ==> exists x :: x in s
  {
    if s != [] {
      assert s[0] in s;
    }
  }

  lemma SubsetCardinality<T>(a: set<T>, b: set<T>)
    requires a <= b
    ensures |a| <= |b|
  {
    assert b == a + (b - a);
  }

  lemma SubsetOfSameSize<T>(a: set<T>, b: set<T>)
    requires a <= b && |a| >= |b|
    ensures a == b
  {
    assert b == a + (b - a);
  }

  /** Inclusion-exclusion, as an inequality over a common superset. */
  lemma IntersectionCardinality<T>(a: set<T>, b: set<T>, all: set<T>)
    requires a <= all && b <= all
    ensures |a * b| >= |a| + |b| - |all|
  {
    SubsetCardinality(a + b, all);
    assert a + b == a + (b - a);
    assert b == (b - a) + a * b;
  }

  lemma ElementsCardinality<T>(s: seq<T>)
    ensures |Elements(s)| <= |s|
    ensures Distinct(s) ==> |Elements(s)| == |s|
  {
    if s == [] {
      assert Elements(s) == {};
    } else {
      var front, last := s[..|s| - 1], s[|s| - 1];
      ElementsCardinality(front);
      assert s == front + [last];
      assert Elements(s) == Elements(front) + {last};
    }
  }
}
