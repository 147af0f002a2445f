/** The hand-written RLP codec of the round change payload (Appendix B of the Ethereum
    Yellow Paper), over the integer, hash and header codecs it is built on. */
module Rlp {
  import opened Prelude

  const EMPTY_STRING_CODE: nat := 0x80
  const EMPTY_LIST_CODE: nat := 0xC0

  type U64 = x: nat | x <= U64_MAX
  type Hash32 = h: seq<Byte> | |h| == 32 witness seq(32, _ => 0)

  /** A round change payload as it goes over the wire. */
  datatype RoundChangePayload = RoundChangePayload(
    height: U64, round: U64, preparedValue: Option<Hash32>, preparedRound: Option<U64>)

  datatype Error =
    | InputTooShort | NonCanonicalSingleByte | NonCanonicalSize | LeadingZero | Overflow
    | UnexpectedList | UnexpectedString | UnexpectedLength | NotAList | TrailingBytes

  /** A decoded value and the bytes after it. */
  datatype Decoded<+T> = Ok(value: T, rest: seq<Byte>) | Err(error: Error)

  // ---- Big-endian integers --------------------------------------------------------

  /** Big-endian bytes without leading zeros. */
  function Trimmed(n: nat): (bs: seq<Byte>)
    ensures n > 0 ==> |bs| > 0 && bs[0] != 0
  {
    if n == 0 then [] else Trimmed(n / 256) + [n % 256]
  }

  /** The number of significant bytes, from the count of leading zero bits. */
  function ByteCount(n: nat): (c: nat) {
    if n == 0 then 0 else 1 + ByteCount(n / 256)
  }

  lemma {:induction false} TrimmedRoundTrip(n: nat)
    ensures FromBigEndian(Trimmed(n)) == n
    ensures |Trimmed(n)| == ByteCount(n)
  {
    if n > 0 {
      TrimmedRoundTrip(n / 256);
      FromSameBytes(Trimmed(n), Trimmed(n / 256), |Trimmed(n / 256)|);
    }
  }

  lemma {:induction false} ByteCountBound(n: nat, k: nat)
    requires n < Pow256(k)
    ensures ByteCount(n) <= k
  {
    if n > 0 {
      ByteCountBound(n / 256, k - 1);
    }
  }

  lemma U64Bytes(n: U64)
    ensures ByteCount(n) <= 8
  {
    EightBytes();
    ByteCountBound(n, 8);
  }

  // ---- Encoding -------------------------------------------------------------------

  function EncodeU64(x: U64): (bs: seq<Byte>) {
    if x == 0 then [EMPTY_STRING_CODE]
    else if x < EMPTY_STRING_CODE then [x]
    else
      U64Bytes(x); TrimmedRoundTrip(x);
      [EMPTY_STRING_CODE + |Trimmed(x)|] + Trimmed(x)
  }

  function U64Length(x: U64): (n: nat) {
    if x < EMPTY_STRING_CODE then 1 else 1 + ByteCount(x)
  }

  function EncodeHash(h: Hash32): (bs: seq<Byte>) {
    [EMPTY_STRING_CODE + 32] + h
  }

  function EncodeListHeader(payload: U64): (bs: seq<Byte>) {
    if payload < 56 then [EMPTY_LIST_CODE + payload]
    else
      U64Bytes(payload); TrimmedRoundTrip(payload);
      [0xF7 + |Trimmed(payload)|] + Trimmed(payload)
  }

  function ListHeaderLength(payload: nat): (n: nat) {
    if payload < 56 then 1 else 1 + ByteCount(payload)
  }

  /** The prepared round is shifted by one so that round 0 differs from none. */
  function PreparedValueBytes(x: RoundChangePayload): (bs: seq<Byte>) {
    if x.preparedValue.Some? then EncodeHash(x.preparedValue.value)
    else if x.preparedRound.Some? then [EMPTY_STRING_CODE]
    else []
  }

  function PreparedRoundBytes(x: RoundChangePayload): (bs: seq<Byte>)
    requires Encodable(x)
  {
    if x.preparedRound.Some? then EncodeU64(x.preparedRound.value + 1) else []
  }

  /** The one input on which encoding panics is the largest prepared round. */
  predicate Encodable(x: RoundChangePayload) {
    x.preparedRound.Some? ==> x.preparedRound.value < U64_MAX
  }

  function PayloadBytes(x: RoundChangePayload): (bs: seq<Byte>)
    requires Encodable(x)
  {
    EncodeU64(x.height) + EncodeU64(x.round) + PreparedValueBytes(x) + PreparedRoundBytes(x)
  }

  /** The payload length as both `encode` and `length` compute it, ahead of the bytes. */
  function PayloadLength(x: RoundChangePayload): (n: nat)
    requires Encodable(x)
  {
    var value := if x.preparedValue.Some? then 33 else if x.preparedRound.Some? then 1 else 0;
    var round := if x.preparedRound.Some? then U64Length(x.preparedRound.value + 1) else 0;
    U64Length(x.height) + U64Length(x.round) + value + round
  }

  lemma EncodeU64Length(x: U64)
    ensures |EncodeU64(x)| == U64Length(x) <= 9
  {
    U64Bytes(x);
    TrimmedRoundTrip(x);
  }

  lemma PayloadLengthIsRight(x: RoundChangePayload)
    requires Encodable(x)
    ensures |PayloadBytes(x)| == PayloadLength(x) <= 60
  {
    EncodeU64Length(x.height);
    EncodeU64Length(x.round);
    if x.preparedRound.Some? {
      EncodeU64Length(x.preparedRound.value + 1);
    }
  }

  function Encode(x: RoundChangePayload): (bs: seq<Byte>)
    requires Encodable(x)
  {
    PayloadLengthIsRight(x);
    EncodeListHeader(PayloadLength(x)) + PayloadBytes(x)
  }

  function Length(x: RoundChangePayload): (n: nat)
    requires Encodable(x)
  {
    ListHeaderLength(PayloadLength(x)) + PayloadLength(x)
  }

  // ---- Decoding -------------------------------------------------------------------

  datatype Header = Header(list: bool, payload: nat)

  /** A header whose length is itself written in `width` bytes. */
  function DecodeLong(list: bool, width: nat, rest: seq<Byte>): (r: Decoded<Header>)
    requires width > 0
  {
    if |rest| < width then Err(InputTooShort)
    else if rest[0] == 0 then Err(LeadingZero)
    else
      var n, tail := FromBigEndian(rest[..width]), rest[width..];
      if n < 56 then Err(NonCanonicalSize)
      else if |tail| < n then Err(InputTooShort)
      else Ok(Header(list, n), tail)
  }

  function DecodeHeader(buf: seq<Byte>): (r: Decoded<Header>) {
    if buf == [] then Err(InputTooShort)
    else
      var b := buf[0];
      if b < EMPTY_STRING_CODE then Ok(Header(false, 1), buf)
      else if b <= 0xB7 then
        var rest, n := buf[1..], b - EMPTY_STRING_CODE;
        if n == 1 && rest == [] then Err(InputTooShort)
        else if n == 1 && rest[0] < EMPTY_STRING_CODE then Err(NonCanonicalSingleByte)
        else if |rest| < n then Err(InputTooShort)
        else Ok(Header(false, n), rest)
      else if b <= 0xBF || b >= 0xF8 then
        var list := b >= 0xF8;
        DecodeLong(list, b - (if list then 0xF7 else 0xB7), buf[1..])
      else
        var rest, n := buf[1..], b - EMPTY_LIST_CODE;
        if |rest| < n then Err(InputTooShort) else Ok(Header(true, n), rest)
  }

  /** Decoding never promises more payload than there is. */
  lemma HeaderFits(buf: seq<Byte>)
    ensures DecodeHeader(buf).Ok? ==> DecodeHeader(buf).value.payload <= |DecodeHeader(buf).rest|
  {
  }

  function DecodeString(buf: seq<Byte>): (r: Decoded<seq<Byte>>) {
    var h := DecodeHeader(buf);
    HeaderFits(buf);
    if h.Err? then Err(h.error)
    else if h.value.list then Err(UnexpectedList)
    else Ok(h.rest[..h.value.payload], h.rest[h.value.payload..])
  }

  function DecodeU64(buf: seq<Byte>): (r: Decoded<U64>) {
    var s := DecodeString(buf);
    if s.Err? then Err(s.error)
    else if |s.value| > 8 then Err(Overflow)
    else if |s.value| > 0 && s.value[0] == 0 then Err(LeadingZero)
    else
      FromBigEndianBound(s.value, 8);
      Ok(FromBigEndian(s.value), s.rest)
  }

  lemma FromBigEndianBound(bs: seq<Byte>, k: nat)
    requires |bs| <= k && k == 8
    ensures FromBigEndian(bs) <= U64_MAX
  {
    FromBytesBelow(bs, |bs|);
    Pow256Grows(|bs|, k);
    EightBytes();
  }

  function DecodeHash(buf: seq<Byte>): (r: Decoded<Hash32>) {
    var s := DecodeString(buf);
    if s.Err? then Err(s.error)
    else if |s.value| != 32 then Err(UnexpectedLength)
    else Ok(s.value, s.rest)
  }

  /** The optional fields: absent, or an empty string, or a value. */
  function DecodeOptional<T>(inner: seq<Byte>, decode: seq<Byte> -> Decoded<T>): (r: Decoded<Option<T>>) {
    if inner == [] then Ok(None, inner)
    else if inner[0] == EMPTY_STRING_CODE then Ok(None, inner[1..])
    else
      match decode(inner)
      case Err(e) => Err(e)
      case Ok(v, rest) => Ok(Some(v), rest)
  }

  function DecodePayload(inner: seq<Byte>): (r: Decoded<RoundChangePayload>) {
    var height := DecodeU64(inner);
    if height.Err? then Err(height.error) else
    var round := DecodeU64(height.rest);
    if round.Err? then Err(round.error) else
    var value := DecodeOptional(round.rest, DecodeHash);
    if value.Err? then Err(value.error) else
    var prepared := DecodeOptional(value.rest, DecodeU64);
    if prepared.Err? then Err(prepared.error)
    else if prepared.rest != [] then Err(TrailingBytes)
    else
      var preparedRound: Option<U64> :=
        if prepared.value.None? || prepared.value.value == 0 then None else Some(prepared.value.value - 1);
      Ok(RoundChangePayload(height.value, round.value, value.value, preparedRound), [])
  }

  function Decode(buf: seq<Byte>): (r: Decoded<RoundChangePayload>) {
    var h := DecodeHeader(buf);
    HeaderFits(buf);
    if h.Err? then Err(h.error)
    else if !h.value.list then Err(NotAList)
    else
      match DecodePayload(h.rest[..h.value.payload])
      case Err(e) => Err(e)
      case Ok(x, _) => Ok(x, h.rest[h.value.payload..])
  }

  // ---- Round trips ----------------------------------------------------------------

  lemma U64RoundTrip(x: U64, suffix: seq<Byte>)
    ensures DecodeU64(EncodeU64(x) + suffix) == Ok(x, suffix)
  {
    var buf := EncodeU64(x) + suffix;
    if x == 0 {
      assert DecodeHeader(buf) == Ok(Header(false, 0), suffix) by {
        assert buf[1..] == suffix;
      }
    } else if x < EMPTY_STRING_CODE {
      assert buf[..1] == [x] && buf[1..] == suffix;
      assert FromBytes([x], 0) == 0 && FromBigEndian([x]) == x;
    } else {
      LargeU64RoundTrip(x, suffix);
    }
  }

  lemma LargeU64RoundTrip(x: U64, suffix: seq<Byte>)
    requires x >= EMPTY_STRING_CODE
    ensures DecodeU64(EncodeU64(x) + suffix) == Ok(x, suffix)
  {
    var bs := Trimmed(x);
    U64Bytes(x);
    TrimmedRoundTrip(x);
    LargeNotShort(x);
    DecodeShortHeader(EncodeU64(x) + suffix, bs, suffix);
    assert (bs + suffix)[..|bs|] == bs && (bs + suffix)[|bs|..] == suffix;
  }

  lemma DecodeShortHeader(buf: seq<Byte>, bs: seq<Byte>, suffix: seq<Byte>)
    requires 1 <= |bs| <= 8 && buf == [EMPTY_STRING_CODE + |bs|] + bs + suffix
    requires |bs| == 1 ==> bs[0] >= EMPTY_STRING_CODE
    ensures DecodeHeader(buf) == Ok(Header(false, |bs|), bs + suffix)
  {
    assert buf[1..] == bs + suffix;
  }

  /** A one-byte string of a number from 128 on is not the canonical single byte. */
  lemma LargeNotShort(x: U64)
    requires x >= EMPTY_STRING_CODE
    ensures |Trimmed(x)| == 1 ==> Trimmed(x)[0] >= EMPTY_STRING_CODE
  {
    if |Trimmed(x)| == 1 {
      TrimmedRoundTrip(x);
      assert Trimmed(x)[..0] == [];
    }
  }

  lemma HashRoundTrip(h: Hash32, suffix: seq<Byte>)
    ensures DecodeHash(EncodeHash(h) + suffix) == Ok(h, suffix)
  {
    var buf := EncodeHash(h) + suffix;
    assert buf[1..] == h + suffix;
    assert DecodeHeader(buf) == Ok(Header(false, 32), h + suffix);
    assert (h + suffix)[..32] == h && (h + suffix)[32..] == suffix;
  }

  lemma ListHeaderRoundTrip(payload: U64, body: seq<Byte>)
    requires payload <= |body|
    ensures DecodeHeader(EncodeListHeader(payload) + body) == Ok(Header(true, payload), body)
  {
    var buf := EncodeListHeader(payload) + body;
    if payload < 56 {
      assert buf[1..] == body;
    } else {
      LongHeaderRoundTrip(payload, body);
    }
  }

  lemma LongHeaderRoundTrip(payload: U64, body: seq<Byte>)
    requires 56 <= payload <= |body|
    ensures DecodeHeader(EncodeListHeader(payload) + body) == Ok(Header(true, payload), body)
  {
    var bs := Trimmed(payload);
    U64Bytes(payload);
    TrimmedRoundTrip(payload);
    DecodeLongHeader(EncodeListHeader(payload) + body, bs, body);
  }

  lemma DecodeLongHeader(buf: seq<Byte>, bs: seq<Byte>, body: seq<Byte>)
    requires 1 <= |bs| <= 8 && bs[0] != 0 && buf == [0xF7 + |bs|] + bs + body
    requires 56 <= FromBigEndian(bs) <= |body|
    ensures DecodeHeader(buf) == Ok(Header(true, FromBigEndian(bs)), body)
  {
    Peel(0xF7 + |bs|, bs, body);
    LongBranch(buf);
    DecodeLength(bs, body);
  }

  lemma Peel(b: Byte, bs: seq<Byte>, body: seq<Byte>)
    ensures var buf := [b] + bs + body; buf != [] && buf[0] == b && buf[1..] == bs + body
  {
  }

  lemma LongBranch(buf: seq<Byte>)
    requires buf != [] && buf[0] >= 0xF8
    ensures DecodeHeader(buf) == DecodeLong(true, buf[0] - 0xF7, buf[1..])
  {
  }

  lemma DecodeLength(bs: seq<Byte>, body: seq<Byte>)
    requires 1 <= |bs| && bs[0] != 0 && 56 <= FromBigEndian(bs) <= |body|
    ensures DecodeLong(true, |bs|, bs + body) == Ok(Header(true, FromBigEndian(bs)), body)
  {
    var rest := bs + body;
    assert rest[..|bs|] == bs;
    assert rest[|bs|..] == body;
  }

  /** A shifted round starts with a byte of its own, never the empty string's. */
  lemma NonZeroIsNotEmptyString(x: U64)
    requires x > 0
    ensures EncodeU64(x)[0] != EMPTY_STRING_CODE
  {
    if x >= EMPTY_STRING_CODE {
      U64Bytes(x);
      TrimmedRoundTrip(x);
    }
  }

  lemma PreparedRoundTrip(x: RoundChangePayload)
    requires Encodable(x)
    ensures DecodeOptional(PreparedRoundBytes(x), DecodeU64)
         == Ok(if x.preparedRound.Some? then Some(x.preparedRound.value + 1) else None, [])
  {
    if x.preparedRound.Some? {
      var n := x.preparedRound.value + 1;
      NonZeroIsNotEmptyString(n);
      U64RoundTrip(n, []);
      assert EncodeU64(n) + [] == EncodeU64(n);
    }
  }

  lemma ValueRoundTrip(x: RoundChangePayload)
    requires Encodable(x)
    ensures DecodeOptional(PreparedValueBytes(x) + PreparedRoundBytes(x), DecodeHash)
         == Ok(x.preparedValue, PreparedRoundBytes(x))
  {
    var inner := PreparedValueBytes(x) + PreparedRoundBytes(x);
    if x.preparedValue.Some? {
      HashRoundTrip(x.preparedValue.value, PreparedRoundBytes(x));
    } else if x.preparedRound.Some? {
      assert inner[1..] == PreparedRoundBytes(x);
    } else {
      assert inner == [];
    }
  }

  lemma PayloadSplits(x: RoundChangePayload)
    requires Encodable(x)
    ensures PayloadBytes(x)
         == EncodeU64(x.height) + (EncodeU64(x.round) + (PreparedValueBytes(x) + PreparedRoundBytes(x)))
  {
  }

  lemma PayloadRoundTrip(x: RoundChangePayload)
    requires Encodable(x)
    ensures DecodePayload(PayloadBytes(x)) == Ok(x, [])
  {
    var tail := PreparedValueBytes(x) + PreparedRoundBytes(x);
    U64RoundTrip(x.height, EncodeU64(x.round) + tail);
    U64RoundTrip(x.round, tail);
    PayloadSplits(x);
    ValueRoundTrip(x);
    PreparedRoundTrip(x);
  }

  /** Decoding what was encoded gives back the payload and leaves exactly what followed. */
  lemma RoundTrip(x: RoundChangePayload, suffix: seq<Byte>)
    requires Encodable(x)
    ensures Decode(Encode(x) + suffix) == Ok(x, suffix)
  {
    var payload := PayloadBytes(x);
    PayloadLengthIsRight(x);
    var body := payload + suffix;
    assert Encode(x) + suffix == EncodeListHeader(|payload|) + body;
    ListHeaderRoundTrip(|payload|, body);
    assert body[..|payload|] == payload && body[|payload|..] == suffix;
    PayloadRoundTrip(x);
  }

  /** The announced length is the number of bytes written. */
  lemma LengthIsRight(x: RoundChangePayload)
    requires Encodable(x)
    ensures Length(x) == |Encode(x)|
  {
    PayloadLengthIsRight(x);
    TrimmedRoundTrip(PayloadLength(x));
  }

  /** No encoding is a prefix of another's, so payloads can be told apart in a stream. */
  lemma EncodingIsPrefixFree(x: RoundChangePayload, y: RoundChangePayload, s: seq<Byte>, t: seq<Byte>)
    requires Encodable(x) && Encodable(y)
    requires Encode(x) + s == Encode(y) + t
    ensures x == y && s == t
  {
    RoundTrip(x, s);
    RoundTrip(y, t);
  }

  // ---- The codec on buffers -------------------------------------------------------

  /** An output buffer that is only ever appended to. */
  class Writer {
    var bytes: seq<Byte>

    constructor ()
      ensures bytes == []
    {
      bytes := [];
    }

    method PutU64(x: U64)
      modifies this
      ensures bytes == old(bytes) + EncodeU64(x)
    {
      if x == 0 {
        bytes := bytes + [EMPTY_STRING_CODE];
      } else if x < EMPTY_STRING_CODE {
        bytes := bytes + [x];
      } else {
        var be := Trimmed(x);
        U64Bytes(x);
        TrimmedRoundTrip(x);
        Append(EMPTY_STRING_CODE + |be|, be);
      }
    }

    method PutListHeader(payload: U64)
      modifies this
      ensures bytes == old(bytes) + EncodeListHeader(payload)
    {
      if payload < 56 {
        bytes := bytes + [EMPTY_LIST_CODE + payload];
      } else {
        var be := Trimmed(payload);
        U64Bytes(payload);
        TrimmedRoundTrip(payload);
        Append(0xF7 + |be|, be);
      }
    }

    method Append(first: Byte, be: seq<Byte>)
      modifies this
      ensures bytes == old(bytes) + ([first] + be)
    {
      bytes := bytes + [first];
      bytes := bytes + be;
    }

    method PutPrepared(x: RoundChangePayload)
      requires Encodable(x)
      modifies this
      ensures bytes == old(bytes) + (PreparedValueBytes(x) + PreparedRoundBytes(x))
    {
      if x.preparedValue.Some? {
        bytes := bytes + EncodeHash(x.preparedValue.value);
      } else if x.preparedRound.Some? {
        bytes := bytes + [EMPTY_STRING_CODE];
      }
      assert bytes == old(bytes) + PreparedValueBytes(x);
      if x.preparedRound.Some? {
        PutU64(x.preparedRound.value + 1);
      }
    }

    /** Fails, writing nothing, exactly when the prepared round cannot be shifted. */
    method PutRoundChange(x: RoundChangePayload) returns (ok: bool)
      modifies this
      ensures ok == Encodable(x)
      ensures bytes == old(bytes) + (if ok then Encode(x) else [])
    {
      if x.preparedRound.Some? && x.preparedRound.value == U64_MAX {
        return false;
      }
      PayloadLengthIsRight(x);
      var payload := PayloadLength(x);
      PutListHeader(payload);
      PutU64(x.height);
      PutU64(x.round);
      PutPrepared(x);
      ok := true;
      Regroup(old(bytes), EncodeListHeader(payload), EncodeU64(x.height), EncodeU64(x.round),
              PreparedValueBytes(x), PreparedRoundBytes(x));
    }
  }

  lemma Regroup(out: seq<Byte>, a: seq<Byte>, b: seq<Byte>, c: seq<Byte>, d: seq<Byte>, e: seq<Byte>)
    ensures out + a + b + c + (d + e) == out + (a + (b + c + d + e))
  {
  }

  /** A read cursor. On failure the cursor's place is of no consequence to the caller. */
  class Cursor {
    var rest: seq<Byte>

    constructor (bytes: seq<Byte>)
      ensures rest == bytes
    {
      rest := bytes;
    }

    method TakeU64() returns (r: Decoded<U64>)
      modifies this
      ensures r == DecodeU64(old(rest))
      ensures r.Ok? ==> rest == r.rest
    {
      r := DecodeU64(rest);
      if r.Ok? {
        rest := r.rest;
      }
    }

    /** Reads an optional hash: absent, or an empty string, or a value. */
    method TakeOptionalHash() returns (r: Decoded<Option<Hash32>>)
      modifies this
      ensures r == DecodeOptional(old(rest), DecodeHash)
      ensures r.Ok? ==> rest == r.rest
    {
      if rest == [] {
        return Ok(None, rest);
      }
      if rest[0] == EMPTY_STRING_CODE {
        rest := rest[1..];
        return Ok(None, rest);
      }
      var v := DecodeHash(rest);
      if v.Err? { return Err(v.error); }
      rest := v.rest;
      r := Ok(Some(v.value), rest);
    }

    /** Reads an optional integer in the same way. */
    method TakeOptionalU64() returns (r: Decoded<Option<U64>>)
      modifies this
      ensures r == DecodeOptional(old(rest), DecodeU64)
      ensures r.Ok? ==> rest == r.rest
    {
      if rest == [] {
        return Ok(None, rest);
      }
      if rest[0] == EMPTY_STRING_CODE {
        rest := rest[1..];
        return Ok(None, rest);
      }
      var v := TakeU64();
      if v.Err? { return Err(v.error); }
      r := Ok(Some(v.value), rest);
    }

    /** Reads the fields of a payload, which must take up all that is left. */
    method TakeFields() returns (r: Decoded<RoundChangePayload>)
      modifies this
      ensures r == DecodePayload(old(rest))
    {
      var height := TakeU64();
      if height.Err? { return Err(height.error); }
      var round := TakeU64();
      if round.Err? { return Err(round.error); }
      var preparedValue := TakeOptionalHash();
      if preparedValue.Err? { return Err(preparedValue.error); }
      var shifted := TakeOptionalU64();
      if shifted.Err? { return Err(shifted.error); }
      if rest != [] { return Err(TrailingBytes); }
      var preparedRound: Option<U64> :=
        if shifted.value.None? || shifted.value.value == 0 then None else Some(shifted.value.value - 1);
      r := Ok(RoundChangePayload(height.value, round.value, preparedValue.value, preparedRound), []);
    }

    /** Reads one payload, through a second cursor over the list's contents. */
    method TakeRoundChange() returns (r: Decoded<RoundChangePayload>)
      modifies this
      ensures r == Decode(old(rest))
      ensures r.Ok? ==> rest == r.rest
    {
      var h := DecodeHeader(rest);
      HeaderFits(rest);
      if h.Err? { return Err(h.error); }
      if !h.value.list { return Err(NotAList); }
      var inner := new Cursor(h.rest[..h.value.payload]);
      var fields := inner.TakeFields();
      if fields.Err? { return Err(fields.error); }
      rest := h.rest[h.value.payload..];
      r := Ok(fields.value, rest);
    }
  }
}
