/** The hand-written encoder for the call `initialize(address[],address,uint256,uint256,
    uint256,uint256,string[])`, against the head and tail rules of the Solidity Contract ABI
    Specification, section "Formal Specification of the Encoding". */
module Abi {
  import opened Prelude

  type Address20 = a: seq<Byte> | |a| == 20 witness seq(20, _ => 0)

  const U64_LIMIT: nat := U64_MAX + 1

  /** Seven head words. */
  const HEAD_SIZE: nat := 7 * 32

  datatype Call = Call(
    validators: seq<Address20>,
    admin: Address20,
    maxActiveValidators: nat,
    baseFee: nat,
    blockIntervalMs: nat,
    epochLength: nat,
    enodes: seq<seq<Byte>>)

  // ---- Words ----------------------------------------------------------------------

  /** Byte `k` of `n`, counted from the least significant. */
  function ByteOf(n: nat, k: nat): (b: Byte)
    decreases k, n
  {
    if k == 0 then n % 256 else ByteOf(n / 256, k - 1)
  }

  /** The low `width` bytes of `n`, big-endian. */
  function BigEndian(n: nat, width: nat): (bs: seq<Byte>)
    ensures |bs| == width
  {
    seq(width, i requires 0 <= i < width => ByteOf(n, width - 1 - i))
  }

  /** The first `k` bytes of a number are the number without its other bytes. */
  lemma {:induction false} LeadingBytes(n: nat, width: nat, k: nat)
    requires k <= width && n < Pow256(width)
    ensures FromBytes(BigEndian(n, width), k) == Drop(n, width - k)
    decreases k
  {
    if k == 0 {
      DropAll(n, width);
    } else {
      LeadingBytes(n, width, k - 1);
      DropOne(n, width - k);
    }
  }

  /** `n` without its `k` low bytes. */
  function Drop(n: nat, k: nat): (m: nat)
    decreases k
  {
    if k == 0 then n else Drop(n / 256, k - 1)
  }

  lemma {:induction false} DropAll(n: nat, k: nat)
    requires n < Pow256(k)
    ensures Drop(n, k) == 0
    decreases k
  {
    if k > 0 {
      DropAll(n / 256, k - 1);
    }
  }

  lemma {:induction false} DropOne(n: nat, k: nat)
    ensures Drop(n, k) == Drop(n, k + 1) * 256 + ByteOf(n, k)
    decreases k
  {
    if k > 0 {
      DropOne(n / 256, k - 1);
    }
  }

  lemma BigEndianRoundTrip(n: nat, width: nat)
    requires n < Pow256(width)
    ensures FromBigEndian(BigEndian(n, width)) == n
  {
    LeadingBytes(n, width, width);
  }

  /** A 32-byte word. */
  function Word(n: nat): (bs: seq<Byte>)
    ensures |bs| == 32
  {
    BigEndian(n, 32)
  }

  lemma WordRoundTrip(n: nat)
    requires n < U64_LIMIT
    ensures FromBigEndian(Word(n)) == n
  {
    EightBytes();
    Pow256Grows(8, 32);
    BigEndianRoundTrip(n, 32);
  }

  function Zeros(n: nat): (bs: seq<Byte>)
    ensures |bs| == n
  {
    seq(n, _ => 0)
  }

  /** An address in the low 20 bytes of a word. */
  function AddressWord(a: Address20): (bs: seq<Byte>)
    ensures |bs| == 32
  {
    Zeros(12) + a
  }

  // ---- Encoding, as a value -------------------------------------------------------

  /** The least whole number of words that holds `n` bytes. */
  function PaddedLength(n: nat): (p: nat)
    ensures n <= p < n + 32
  {
    if n == 0 then 0 else if n <= 32 then 32 else 32 + PaddedLength(n - 32)
  }

  lemma {:induction false} PaddedLengthRoundsUp(n: nat)
    ensures PaddedLength(n) == (n + 31) / 32 * 32
  {
    if n > 32 {
      PaddedLengthRoundsUp(n - 32);
    }
  }

  function StringTail(s: seq<Byte>): (bs: seq<Byte>)
    ensures |bs| == 32 + PaddedLength(|s|)
  {
    Word(|s|) + s + Zeros(PaddedLength(|s|) - |s|)
  }

  /** The bytes the first `k` strings take. */
  function TailSize(ss: seq<seq<Byte>>, k: nat): (n: nat)
    requires k <= |ss|
  {
    if k == 0 then 0 else TailSize(ss, k - 1) + (32 + PaddedLength(|ss[k - 1]|))
  }

  function StringTails(ss: seq<seq<Byte>>, k: nat): (bs: seq<Byte>)
    requires k <= |ss|
    ensures |bs| == TailSize(ss, k)
  {
    if k == 0 then [] else StringTails(ss, k - 1) + StringTail(ss[k - 1])
  }

  /** The first `k` offset words: each points past the offset table and the earlier strings. */
  function StringOffsets(ss: seq<seq<Byte>>, k: nat): (bs: seq<Byte>)
    requires k <= |ss|
    ensures |bs| == 32 * k
  {
    if k == 0 then [] else StringOffsets(ss, k - 1) + Word(32 * |ss| + TailSize(ss, k - 1))
  }

  function AddressWords(xs: seq<Address20>, k: nat): (bs: seq<Byte>)
    requires k <= |xs|
    ensures |bs| == 32 * k
  {
    if k == 0 then [] else AddressWords(xs, k - 1) + AddressWord(xs[k - 1])
  }

  /** Words one after the other. */
  function Flatten(ws: seq<seq<Byte>>): (bs: seq<Byte>)
    requires forall w :: w in ws ==> |w| == 32
    ensures |bs| == 32 * |ws|
  {
    if ws == [] then []
    else
      assert forall w :: w in ws[..|ws| - 1] ==> w in ws;
      Flatten(ws[..|ws| - 1]) + ws[|ws| - 1]
  }

  /** The seven heads: dynamic arguments are represented by the offset of their tail. */
  function HeadWords(c: Call): (ws: seq<seq<Byte>>)
    ensures |ws| == 7 && forall w :: w in ws ==> |w| == 32
  {
    [Word(HEAD_SIZE), AddressWord(c.admin), Word(c.maxActiveValidators), Word(c.baseFee),
     Word(c.blockIntervalMs), Word(c.epochLength), Word(HEAD_SIZE + (32 + 32 * |c.validators|))]
  }

  function Head(c: Call): (bs: seq<Byte>)
    ensures |bs| == HEAD_SIZE
  {
    Flatten(HeadWords(c))
  }

  function ValidatorsTail(c: Call): (bs: seq<Byte>)
    ensures |bs| == 32 + 32 * |c.validators|
  {
    Word(|c.validators|) + AddressWords(c.validators, |c.validators|)
  }

  function EnodesTail(c: Call): (bs: seq<Byte>) {
    Word(|c.enodes|) + StringOffsets(c.enodes, |c.enodes|) + StringTails(c.enodes, |c.enodes|)
  }

  function Arguments(c: Call): (bs: seq<Byte>) {
    Head(c) + ValidatorsTail(c) + EnodesTail(c)
  }

  // ---- The encoder ----------------------------------------------------------------

  method AppendAddresses(data: seq<Byte>, addresses: seq<Address20>) returns (out: seq<Byte>)
    ensures out == data + AddressWords(addresses, |addresses|)
  {
    out := data;
    for i := 0 to |addresses|
      invariant out == data + AddressWords(addresses, i)
    {
      out := out + AddressWord(addresses[i]);
    }
  }

  method AppendOffsets(data: seq<Byte>, enodes: seq<seq<Byte>>) returns (out: seq<Byte>)
    ensures out == data + StringOffsets(enodes, |enodes|)
  {
    out := data;
    var currentOffset := 32 * |enodes|;
    for i := 0 to |enodes|
      invariant currentOffset == 32 * |enodes| + TailSize(enodes, i)
      invariant out == data + StringOffsets(enodes, i)
    {
      out := out + Word(currentOffset);
      var paddedLen := (|enodes[i]| + 31) / 32 * 32;
      PaddedLengthRoundsUp(|enodes[i]|);
      currentOffset := currentOffset + (32 + paddedLen);
    }
  }

  method AppendStrings(data: seq<Byte>, enodes: seq<seq<Byte>>) returns (out: seq<Byte>)
    ensures out == data + StringTails(enodes, |enodes|)
  {
    out := data;
    for i := 0 to |enodes|
      invariant out == data + StringTails(enodes, i)
    {
      ghost var before := out;
      out := out + Word(|enodes[i]|);
      out := out + enodes[i];
      var paddedLen := (|enodes[i]| + 31) / 32 * 32;
      PaddedLengthRoundsUp(|enodes[i]|);
      var padding := paddedLen - |enodes[i]|;
      out := out + Zeros(padding);
      assert out == before + StringTail(enodes[i]);
    }
  }

  /** `out` is `data` and the first `k` words. */
  predicate Wrote(out: seq<Byte>, data: seq<Byte>, ws: seq<seq<Byte>>, k: nat)
    requires k <= |ws| && forall w :: w in ws ==> |w| == 32
  {
    assert forall w :: w in ws[..k] ==> w in ws;
    out == data + Flatten(ws[..k])
  }

  lemma WroteNext(out: seq<Byte>, data: seq<Byte>, ws: seq<seq<Byte>>, k: nat, w: seq<Byte>)
    requires forall w :: w in ws ==> |w| == 32
    requires k < |ws| && ws[k] == w && Wrote(out, data, ws, k)
    ensures Wrote(out + w, data, ws, k + 1)
  {
    assert ws[..k + 1][..k] == ws[..k];
    assert forall w :: w in ws[..k + 1] ==> w in ws;
  }

  method AppendHead(data: seq<Byte>, c: Call) returns (out: seq<Byte>)
    ensures out == data + Head(c)
  {
    ghost var ws := HeadWords(c);
    out := AppendHeadStart(data, c);
    WroteNext(out, data, ws, 3, Word(c.baseFee));
    out := out + Word(c.baseFee);
    WroteNext(out, data, ws, 4, Word(c.blockIntervalMs));
    out := out + Word(c.blockIntervalMs);
    WroteNext(out, data, ws, 5, Word(c.epochLength));
    out := out + Word(c.epochLength);
    var enodesOffset := HEAD_SIZE + (32 + 32 * |c.validators|);
    WroteNext(out, data, ws, 6, Word(enodesOffset));
    out := out + Word(enodesOffset);
    assert ws[..7] == ws;
  }

  method AppendHeadStart(data: seq<Byte>, c: Call) returns (out: seq<Byte>)
    ensures Wrote(out, data, HeadWords(c), 3)
  {
    ghost var ws := HeadWords(c);
    out := data;
    WroteNext(out, data, ws, 0, Word(HEAD_SIZE));
    out := out + Word(HEAD_SIZE);
    WroteNext(out, data, ws, 1, AddressWord(c.admin));
    out := out + AddressWord(c.admin);
    WroteNext(out, data, ws, 2, Word(c.maxActiveValidators));
    out := out + Word(c.maxActiveValidators);
  }

  method AppendEnodes(data: seq<Byte>, c: Call) returns (out: seq<Byte>)
    ensures out == data + EnodesTail(c)
  {
    out := data + Word(|c.enodes|);
    out := AppendOffsets(out, c.enodes);
    out := AppendStrings(out, c.enodes);
  }

  /** Encodes the call: the selector, the heads, then the two dynamic tails. */
  method EncodeInitialize(selector: seq<Byte>, c: Call) returns (data: seq<Byte>)
    ensures data == selector + Arguments(c)
  {
    data := AppendHead(selector, c);
    data := data + Word(|c.validators|);
    data := AppendAddresses(data, c.validators);
    data := AppendEnodes(data, c);
    Join(selector, Head(c), Word(|c.validators|), AddressWords(c.validators, |c.validators|), EnodesTail(c));
  }

  lemma Join(s: seq<Byte>, a: seq<Byte>, b: seq<Byte>, c: seq<Byte>, d: seq<Byte>)
    ensures s + a + b + c + d == s + (a + (b + c) + d)
  {
  }

  // ---- Decoding, by the standard's rules ------------------------------------------

  function WordAt(data: seq<Byte>, at: nat): (r: Option<nat>) {
    if at + 32 <= |data| then Some(FromBigEndian(data[at..at + 32])) else None
  }

  function AddressAt(data: seq<Byte>, at: nat): (r: Option<Address20>) {
    if at + 32 <= |data| && data[at..at + 12] == Zeros(12) then Some(data[at + 12..at + 32]) else None
  }

  /** `n` addresses, one word each, from `at`. */
  function AddressesAt(data: seq<Byte>, at: nat, n: nat): (r: Option<seq<Address20>>) {
    if n == 0 then Some([])
    else
      var front := AddressesAt(data, at, n - 1);
      var last := AddressAt(data, at + 32 * (n - 1));
      if front.None? || last.None? then None else Some(front.value + [last.value])
  }

  /** A string: its length, then that many bytes. */
  function StringAt(data: seq<Byte>, at: nat): (r: Option<seq<Byte>>) {
    var n := WordAt(data, at);
    if n.None? || at + 32 + n.value > |data| then None else Some(data[at + 32..at + 32 + n.value])
  }

  /** `n` strings, each found through its offset; offsets count from the first offset word. */
  function StringsAt(data: seq<Byte>, base: nat, n: nat): (r: Option<seq<seq<Byte>>>) {
    if n == 0 then Some([])
    else
      var front := StringsAt(data, base, n - 1);
      var offset := WordAt(data, base + 32 * (n - 1));
      if front.None? || offset.None? then None
      else
        var last := StringAt(data, base + offset.value);
        if last.None? then None else Some(front.value + [last.value])
  }

  function DecodeValidators(args: seq<Byte>): (r: Option<seq<Address20>>) {
    var at := WordAt(args, 0);
    if at.None? then None
    else
      var n := WordAt(args, at.value);
      if n.None? then None else AddressesAt(args, at.value + 32, n.value)
  }

  function DecodeEnodes(args: seq<Byte>): (r: Option<seq<seq<Byte>>>) {
    var at := WordAt(args, 192);
    if at.None? then None
    else
      var n := WordAt(args, at.value);
      if n.None? then None else StringsAt(args, at.value + 32, n.value)
  }

  function Decode(args: seq<Byte>): (r: Option<Call>) {
    var validators, enodes := DecodeValidators(args), DecodeEnodes(args);
    var admin := AddressAt(args, 32);
    var a, b, c, d := WordAt(args, 64), WordAt(args, 96), WordAt(args, 128), WordAt(args, 160);
    if validators.None? || enodes.None? || admin.None? || a.None? || b.None? || c.None? || d.None? then None
    else Some(Call(validators.value, admin.value, a.value, b.value, c.value, d.value, enodes.value))
  }

  // ---- Round trip -----------------------------------------------------------------

  /** The integer arguments are 64-bit, and so is the length of any byte vector. */
  predicate FitsMachine(c: Call) {
    && c.maxActiveValidators < U64_LIMIT && c.baseFee < U64_LIMIT
    && c.blockIntervalMs < U64_LIMIT && c.epochLength < U64_LIMIT
    && |Arguments(c)| < U64_LIMIT
  }

  /** `piece` lies in `data` at position `at`. */
  predicate LiesAt(data: seq<Byte>, at: nat, piece: seq<Byte>) {
    at + |piece| <= |data| && data[at..at + |piece|] == piece
  }

  lemma Within(data: seq<Byte>, at: nat, piece: seq<Byte>, i: nat, part: seq<Byte>)
    requires LiesAt(data, at, piece) && LiesAt(piece, i, part)
    ensures LiesAt(data, at + i, part)
  {
    assert data[at + i..at + i + |part|] == data[at..at + |piece|][i..i + |part|] by {
      forall j | 0 <= j < |part|
        ensures data[at + i..at + i + |part|][j] == part[j]
      {
        assert data[at..at + |piece|][i + j] == piece[i + j];
      }
    }
  }

  lemma Joined(a: seq<Byte>, b: seq<Byte>)
    ensures LiesAt(a + b, 0, a) && LiesAt(a + b, |a|, b)
  {
  }

  lemma JoinedThree(a: seq<Byte>, b: seq<Byte>, c: seq<Byte>)
    ensures LiesAt(a + b + c, 0, a) && LiesAt(a + b + c, |a|, b) && LiesAt(a + b + c, |a| + |b|, c)
  {
    Joined(a + b, c);
    Joined(a, b);
    Within(a + b + c, 0, a + b, 0, a);
    Within(a + b + c, 0, a + b, |a|, b);
  }

  lemma ReadWord(data: seq<Byte>, at: nat, n: nat)
    requires LiesAt(data, at, Word(n)) && n < U64_LIMIT
    ensures WordAt(data, at) == Some(n)
  {
    assert data[at..at + 32] == Word(n);
    WordRoundTrip(n);
  }

  lemma ReadAddress(data: seq<Byte>, at: nat, a: Address20)
    requires LiesAt(data, at, AddressWord(a))
    ensures AddressAt(data, at) == Some(a)
  {
    Joined(Zeros(12), a);
    Within(data, at, AddressWord(a), 0, Zeros(12));
    Within(data, at, AddressWord(a), 12, a);
    assert data[at..at + 12] == Zeros(12) && data[at + 12..at + 32] == a;
  }

  lemma {:induction false} AddressSlot(xs: seq<Address20>, n: nat, k: nat)
    requires k < n <= |xs|
    ensures LiesAt(AddressWords(xs, n), 32 * k, AddressWord(xs[k]))
    decreases n
  {
    var front, last := AddressWords(xs, n - 1), AddressWord(xs[n - 1]);
    Joined(front, last);
    if k < n - 1 {
      AddressSlot(xs, n - 1, k);
      Within(front + last, 0, front, 32 * k, AddressWord(xs[k]));
    }
  }

  predicate AddressOk(words: seq<Byte>, xs: seq<Address20>, k: nat)
    requires k < |xs|
  {
    LiesAt(words, 32 * k, AddressWord(xs[k]))
  }

  lemma {:induction false} ReadAddresses(data: seq<Byte>, at: nat, words: seq<Byte>, xs: seq<Address20>, k: nat)
    requires LiesAt(data, at, words) && forall i :: 0 <= i < |xs| ==> AddressOk(words, xs, i)
    requires k <= |xs|
    ensures AddressesAt(data, at, k) == Some(xs[..k])
    decreases k
  {
    if k > 0 {
      ReadAddresses(data, at, words, xs, k - 1);
      assert AddressOk(words, xs, k - 1);
      Within(data, at, words, 32 * (k - 1), AddressWord(xs[k - 1]));
      ReadAddress(data, at + 32 * (k - 1), xs[k - 1]);
      assert xs[..k] == xs[..k - 1] + [xs[k - 1]];
    }
  }

  lemma ReadString(data: seq<Byte>, at: nat, s: seq<Byte>)
    requires LiesAt(data, at, StringTail(s)) && |s| < U64_LIMIT
    ensures StringAt(data, at) == Some(s)
  {
    var tail, pad := StringTail(s), Zeros(PaddedLength(|s|) - |s|);
    assert LiesAt(tail, 0, Word(|s|)) && LiesAt(tail, 32, s);
    Within(data, at, tail, 0, Word(|s|));
    Within(data, at, tail, 32, s);
    ReadWord(data, at, |s|);
    assert data[at + 32..at + 32 + |s|] == s;
  }

  /** Offset word `k` counts the offset table and the strings before string `k`. */
  lemma {:induction false} OffsetSlot(ss: seq<seq<Byte>>, n: nat, k: nat)
    requires k < n <= |ss|
    ensures LiesAt(StringOffsets(ss, n), 32 * k, Word(32 * |ss| + TailSize(ss, k)))
    decreases n
  {
    var front, last := StringOffsets(ss, n - 1), Word(32 * |ss| + TailSize(ss, n - 1));
    Joined(front, last);
    if k < n - 1 {
      OffsetSlot(ss, n - 1, k);
      Within(front + last, 0, front, 32 * k, Word(32 * |ss| + TailSize(ss, k)));
    }
  }

  /** String `k` starts right after the strings before it. */
  lemma {:induction false} TailSlot(ss: seq<seq<Byte>>, n: nat, k: nat)
    requires k < n <= |ss|
    ensures LiesAt(StringTails(ss, n), TailSize(ss, k), StringTail(ss[k]))
    decreases n
  {
    var front, last := StringTails(ss, n - 1), StringTail(ss[n - 1]);
    Joined(front, last);
    if k < n - 1 {
      TailSlot(ss, n - 1, k);
      Within(front + last, 0, front, TailSize(ss, k), StringTail(ss[k]));
    }
  }

  predicate SlotOk(table: seq<Byte>, ss: seq<seq<Byte>>, k: nat)
    requires k < |ss|
  {
    LiesAt(table, 32 * k, Word(32 * |ss| + TailSize(ss, k)))
  }

  predicate TailOk(tails: seq<Byte>, ss: seq<seq<Byte>>, k: nat)
    requires k < |ss|
  {
    LiesAt(tails, TailSize(ss, k), StringTail(ss[k]))
  }

  /** `table` followed by `tails` represents `ss`: every offset, counted from the start of
      the table, lands on its string. */
  predicate Represents(table: seq<Byte>, tails: seq<Byte>, ss: seq<seq<Byte>>) {
    && |table| == 32 * |ss|
    && (forall k :: 0 <= k < |ss| ==> SlotOk(table, ss, k))
    && (forall k :: 0 <= k < |ss| ==> TailOk(tails, ss, k))
  }

  lemma StringsAreRepresented(ss: seq<seq<Byte>>)
    ensures Represents(StringOffsets(ss, |ss|), StringTails(ss, |ss|), ss)
  {
    forall k | 0 <= k < |ss|
      ensures SlotOk(StringOffsets(ss, |ss|), ss, k)
    {
      OffsetSlot(ss, |ss|, k);
    }
    forall k | 0 <= k < |ss|
      ensures TailOk(StringTails(ss, |ss|), ss, k)
    {
      TailSlot(ss, |ss|, k);
    }
  }

  lemma ReadOffset(data: seq<Byte>, base: nat, table: seq<Byte>, tails: seq<Byte>, ss: seq<seq<Byte>>, k: nat)
    requires LiesAt(data, base, table) && k < |ss| && Represents(table, tails, ss)
    requires 32 * |ss| + TailSize(ss, k) < U64_LIMIT
    ensures WordAt(data, base + 32 * k) == Some(32 * |ss| + TailSize(ss, k))
  {
    var offset := 32 * |ss| + TailSize(ss, k);
    assert SlotOk(table, ss, k);
    Within(data, base, table, 32 * k, Word(offset));
    ReadWord(data, base + 32 * k, offset);
  }

  lemma ReadTail(
    data: seq<Byte>, base: nat, table: seq<Byte>, tails: seq<Byte>, ss: seq<seq<Byte>>, k: nat, offset: nat)
    requires LiesAt(data, base + 32 * |ss|, tails) && k < |ss| && Represents(table, tails, ss)
    requires |data| < U64_LIMIT && offset == 32 * |ss| + TailSize(ss, k)
    ensures base + offset <= |data| && StringAt(data, base + offset) == Some(ss[k])
  {
    assert TailOk(tails, ss, k);
    Within(data, base + 32 * |ss|, tails, TailSize(ss, k), StringTail(ss[k]));
    ReadString(data, base + offset, ss[k]);
  }

  lemma OneMoreString(data: seq<Byte>, base: nat, ss: seq<seq<Byte>>, k: nat, offset: nat)
    requires k < |ss| && StringsAt(data, base, k) == Some(ss[..k])
    requires WordAt(data, base + 32 * k) == Some(offset)
    requires StringAt(data, base + offset) == Some(ss[k])
    ensures StringsAt(data, base, k + 1) == Some(ss[..k + 1])
  {
    assert ss[..k + 1] == ss[..k] + [ss[k]];
  }

  lemma {:induction false} ReadStrings(
    data: seq<Byte>, base: nat, table: seq<Byte>, tails: seq<Byte>, ss: seq<seq<Byte>>, k: nat)
    requires LiesAt(data, base, table) && LiesAt(data, base + 32 * |ss|, tails)
    requires Represents(table, tails, ss) && |data| < U64_LIMIT && k <= |ss|
    ensures StringsAt(data, base, k) == Some(ss[..k])
    decreases k
  {
    if k > 0 {
      ReadStrings(data, base, table, tails, ss, k - 1);
      ReadNextString(data, base, table, tails, ss, k - 1);
    }
  }

  lemma ReadNextString(data: seq<Byte>, base: nat, table: seq<Byte>, tails: seq<Byte>, ss: seq<seq<Byte>>, k: nat)
    requires LiesAt(data, base, table) && LiesAt(data, base + 32 * |ss|, tails)
    requires Represents(table, tails, ss) && |data| < U64_LIMIT && k < |ss|
    requires StringsAt(data, base, k) == Some(ss[..k])
    ensures StringsAt(data, base, k + 1) == Some(ss[..k + 1])
  {
    var offset := 32 * |ss| + TailSize(ss, k);
    ReadTail(data, base, table, tails, ss, k, offset);
    ReadOffset(data, base, table, tails, ss, k);
    OneMoreString(data, base, ss, k, offset);
  }

  lemma {:induction false} FlattenSlot(ws: seq<seq<Byte>>, i: nat)
    requires forall w :: w in ws ==> |w| == 32
    requires i < |ws|
    ensures LiesAt(Flatten(ws), 32 * i, ws[i])
    decreases |ws|
  {
    var front := ws[..|ws| - 1];
    assert forall w :: w in front ==> w in ws;
    Joined(Flatten(front), ws[|ws| - 1]);
    if i < |ws| - 1 {
      FlattenSlot(front, i);
      Within(Flatten(ws), 0, Flatten(front), 32 * i, ws[i]);
    }
  }

  /** Where the three parts of the arguments lie. */
  lemma Layout(c: Call)
    ensures LiesAt(Arguments(c), 0, Head(c))
    ensures LiesAt(Arguments(c), HEAD_SIZE, ValidatorsTail(c))
    ensures LiesAt(Arguments(c), HEAD_SIZE + |ValidatorsTail(c)|, EnodesTail(c))
  {
    JoinedThree(Head(c), ValidatorsTail(c), EnodesTail(c));
  }

  lemma HeadSlot(c: Call, i: nat)
    requires i < 7
    ensures LiesAt(Arguments(c), 32 * i, HeadWords(c)[i])
  {
    Layout(c);
    FlattenSlot(HeadWords(c), i);
    Within(Arguments(c), 0, Head(c), 32 * i, HeadWords(c)[i]);
  }

  lemma ReadHeadWord(c: Call, i: nat, n: nat)
    requires i < 7 && n < U64_LIMIT && HeadWords(c)[i] == Word(n)
    ensures WordAt(Arguments(c), 32 * i) == Some(n)
  {
    HeadSlot(c, i);
    ReadWord(Arguments(c), 32 * i, n);
  }

  lemma ReadHeadValues(c: Call)
    requires FitsMachine(c)
    ensures WordAt(Arguments(c), 64) == Some(c.maxActiveValidators)
    ensures WordAt(Arguments(c), 96) == Some(c.baseFee)
    ensures WordAt(Arguments(c), 128) == Some(c.blockIntervalMs)
    ensures WordAt(Arguments(c), 160) == Some(c.epochLength)
  {
    ReadHeadWord(c, 2, c.maxActiveValidators);
    ReadHeadWord(c, 3, c.baseFee);
    ReadHeadWord(c, 4, c.blockIntervalMs);
    ReadHeadWord(c, 5, c.epochLength);
  }

  lemma ReadHeadAdmin(c: Call)
    ensures AddressAt(Arguments(c), 32) == Some(c.admin)
  {
    HeadSlot(c, 1);
    ReadAddress(Arguments(c), 32, c.admin);
  }

  lemma ReadAddressArray(data: seq<Byte>, at: nat, w: seq<Byte>, words: seq<Byte>, xs: seq<Address20>)
    requires LiesAt(data, at, w + words) && w == Word(|xs|) && |xs| < U64_LIMIT
    requires forall i :: 0 <= i < |xs| ==> AddressOk(words, xs, i)
    ensures WordAt(data, at) == Some(|xs|)
    ensures AddressesAt(data, at + 32, |xs|) == Some(xs)
  {
    Joined(w, words);
    Within(data, at, w + words, 0, w);
    Within(data, at, w + words, 32, words);
    ReadWord(data, at, |xs|);
    ReadAddresses(data, at + 32, words, xs, |xs|);
    assert xs[..|xs|] == xs;
  }

  lemma AddressesAreRepresented(xs: seq<Address20>)
    ensures forall i :: 0 <= i < |xs| ==> AddressOk(AddressWords(xs, |xs|), xs, i)
  {
    forall i | 0 <= i < |xs|
      ensures AddressOk(AddressWords(xs, |xs|), xs, i)
    {
      AddressSlot(xs, |xs|, i);
    }
  }

  lemma ReadValidatorsTail(c: Call)
    requires |c.validators| < U64_LIMIT
    ensures WordAt(Arguments(c), HEAD_SIZE) == Some(|c.validators|)
    ensures AddressesAt(Arguments(c), HEAD_SIZE + 32, |c.validators|) == Some(c.validators)
  {
    var xs := c.validators;
    Layout(c);
    AddressesAreRepresented(xs);
    ReadAddressArray(Arguments(c), HEAD_SIZE, Word(|xs|), AddressWords(xs, |xs|), xs);
  }

  lemma ReadValidators(c: Call)
    requires FitsMachine(c)
    ensures DecodeValidators(Arguments(c)) == Some(c.validators)
  {
    ReadHeadWord(c, 0, HEAD_SIZE);
    ReadValidatorsTail(c);
  }

  lemma ReadStringArray(
    data: seq<Byte>, at: nat, w: seq<Byte>, table: seq<Byte>, tails: seq<Byte>, ss: seq<seq<Byte>>)
    requires LiesAt(data, at, w + table + tails) && w == Word(|ss|)
    requires Represents(table, tails, ss) && |data| < U64_LIMIT
    ensures WordAt(data, at) == Some(|ss|)
    ensures StringsAt(data, at + 32, |ss|) == Some(ss)
  {
    JoinedThree(w, table, tails);
    Within(data, at, w + table + tails, 0, w);
    Within(data, at, w + table + tails, 32, table);
    Within(data, at, w + table + tails, 32 + |table|, tails);
    ReadWord(data, at, |ss|);
    ReadStrings(data, at + 32, table, tails, ss, |ss|);
    assert ss[..|ss|] == ss;
  }

  lemma ReadEnodesTail(c: Call, at: nat)
    requires |Arguments(c)| < U64_LIMIT && at == HEAD_SIZE + |ValidatorsTail(c)|
    ensures WordAt(Arguments(c), at) == Some(|c.enodes|)
    ensures StringsAt(Arguments(c), at + 32, |c.enodes|) == Some(c.enodes)
  {
    var ss := c.enodes;
    Layout(c);
    StringsAreRepresented(ss);
    ReadStringArray(Arguments(c), at, Word(|ss|), StringOffsets(ss, |ss|), StringTails(ss, |ss|), ss);
  }

  lemma ReadEnodes(c: Call)
    requires FitsMachine(c)
    ensures DecodeEnodes(Arguments(c)) == Some(c.enodes)
  {
    var at := HEAD_SIZE + |ValidatorsTail(c)|;
    EnodesStart(c, at);
    ReadEnodesTail(c, at);
    EnodesAt(Arguments(c), at, |c.enodes|, c.enodes);
  }

  lemma EnodesAt(args: seq<Byte>, at: nat, n: nat, ss: seq<seq<Byte>>)
    requires WordAt(args, 192) == Some(at) && WordAt(args, at) == Some(n) && StringsAt(args, at + 32, n) == Some(ss)
    ensures DecodeEnodes(args) == Some(ss)
  {
  }

  lemma EnodesStart(c: Call, at: nat)
    requires FitsMachine(c) && at == HEAD_SIZE + |ValidatorsTail(c)|
    ensures WordAt(Arguments(c), 192) == Some(at)
  {
    Layout(c);
    ReadHeadWord(c, 6, at);
  }

  /** Decoding the arguments by the standard's rules recovers every one of them, for any
      number of validators and enodes of any length. */
  lemma RoundTrip(c: Call)
    requires FitsMachine(c)
    ensures Decode(Arguments(c)) == Some(c)
  {
    ReadHeadValues(c);
    ReadHeadAdmin(c);
    ReadValidators(c);
    ReadEnodes(c);
  }
}
