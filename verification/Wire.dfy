/**
  The byte level of the wire format, after the Protocol Buffers Encoding specification,
  sections "Base 128 Varints" and "Length-Delimited Records": varints, tags, records,
  and a generic decoder that folds the records of a byte string into a message.
*/
module Wire {
  import opened Basics

  type byte = x: int | 0 <= x < 256

  const TWO_31 := 0x8000_0000
  const TWO_32 := 0x1_0000_0000
  const TWO_63 := 0x8000_0000_0000_0000
  const TWO_64 := 0x1_0000_0000_0000_0000

  type int32 = x: int | -0x8000_0000 <= x < 0x8000_0000
  type int64 = x: int | -0x8000_0000_0000_0000 <= x < 0x8000_0000_0000_0000
  type uint64 = x: int | 0 <= x < 0x1_0000_0000_0000_0000

  /** The content of a string (its UTF-8 bytes) or bytes field: what fits in one buffer. */
  type Blob = s: seq<byte> | |s| < 0x1_0000_0000 witness []

  // ---- varints ----

  function EncodeVarint(n: nat): (b: seq<byte>)
    ensures |b| >= 1
    decreases n
  {
    if n < 128 then [n] else [128 + n % 128] + EncodeVarint(n / 128)
  }

  datatype Decoded = NoVarint | Varint(value: nat, size: nat)

  /** Reads a varint of at most `limit` bytes. */
  function DecodeVarint(b: seq<byte>, limit: nat): (r: Decoded)
    ensures r.Varint? ==> 1 <= r.size <= |b| && r.size <= limit
    decreases limit
  {
    if b == [] || limit == 0 then NoVarint
    else if b[0] < 128 then Varint(b[0], 1)
    else
      match DecodeVarint(b[1..], limit - 1)
      case NoVarint => NoVarint
      case Varint(v, n) => Varint(b[0] - 128 + 128 * v, n + 1)
  }

  function Pow128(k: nat): (p: nat)
    ensures p >= 1
  {
    if k == 0 then 1 else 128 * Pow128(k - 1)
  }

  lemma {:induction false} VarintRoundTrip(n: nat, rest: seq<byte>, limit: nat)
    requires limit >= 1 && n < Pow128(limit)
    ensures DecodeVarint(EncodeVarint(n) + rest, limit) == Varint(n, |EncodeVarint(n)|)
    decreases limit
  {
    var b := EncodeVarint(n) + rest;
    if n >= 128 {
      assert b[1..] == EncodeVarint(n / 128) + rest;
      assert limit >= 2;
      VarintRoundTrip(n / 128, rest, limit - 1);
    }
  }

  const MAX_VARINT_BYTES := 10

  lemma TenBytesSuffice()
    ensures TWO_64 <= Pow128(MAX_VARINT_BYTES)
  {
  }

  /** A varint's bits beyond the 64th are dropped. */
  function ReadVarint(b: seq<byte>): (r: Decoded)
    ensures r.Varint? ==> r.value < TWO_64 && 1 <= r.size <= |b|
  {
    match DecodeVarint(b, MAX_VARINT_BYTES)
    case NoVarint => NoVarint
    case Varint(v, n) => Varint(v % TWO_64, n)
  }

  lemma ReadVarintRoundTrip(n: nat, rest: seq<byte>)
    requires n < TWO_64
    ensures ReadVarint(EncodeVarint(n) + rest) == Varint(n, |EncodeVarint(n)|)
  {
    TenBytesSuffice();
    VarintRoundTrip(n, rest, MAX_VARINT_BYTES);
  }

  // ---- signed values: two's complement, sign-extended to 64 bits ----

  function ToBits(v: int64): uint64 {
    if v < 0 then v + TWO_64 else v
  }

  function Int64Of(u: nat): (r: int64)
    requires u < TWO_64
    ensures u == ToBits(r)
  {
    if u < TWO_63 then u else u - TWO_64
  }

  /** The low 32 bits, as a signed number. */
  function Int32Of(u: nat): int32 {
    var low := u % TWO_32;
    if low < TWO_31 then low else low - TWO_32
  }

  lemma Int32RoundTrip(v: int32)
    ensures Int32Of(ToBits(v)) == v
  {
  }

  // ---- records ----

  /** One record: a field number with a payload of one of the wire types. */
  datatype Field =
    | VarintField(number: nat, value: nat)
    | Fixed64Field(number: nat, payload: seq<byte>)
    | BytesField(number: nat, payload: seq<byte>)
    | Fixed32Field(number: nat, payload: seq<byte>)

  ghost predicate WellFormed(f: Field) {
    && f.number < 0x2000_0000
    && match f
       case VarintField(_, v) => v < TWO_64
       case Fixed64Field(_, p) => |p| == 8
       case BytesField(_, p) => |p| < TWO_64
       case Fixed32Field(_, p) => |p| == 4
  }

  function EncodeTag(number: nat, wireType: nat): seq<byte> {
    EncodeVarint(number * 8 + wireType)
  }

  function WireType(f: Field): nat {
    match f
    case VarintField(_, _) => 0
    case Fixed64Field(_, _) => 1
    case BytesField(_, _) => 2
    case Fixed32Field(_, _) => 5
  }

  function EncodePayload(f: Field): seq<byte> {
    match f
    case VarintField(_, v) => EncodeVarint(v)
    case BytesField(_, p) => EncodeVarint(|p|) + p
    case Fixed64Field(_, p) => p
    case Fixed32Field(_, p) => p
  }

  function EncodeField(f: Field): (b: seq<byte>)
    ensures |b| >= 1
  {
    EncodeTag(f.number, WireType(f)) + EncodePayload(f)
  }

  /** The next tag: nothing left, a tag with its size in bytes, or garbage. */
  datatype Tag = NoTag | BadTag | Tag(number: nat, wireType: nat, size: nat)

  function ReadTag(b: seq<byte>): (t: Tag)
    ensures t.NoTag? <==> b == []
    ensures t.Tag? ==> 1 <= t.size <= |b|
  {
    if b == [] then NoTag
    else
      match ReadVarint(b)
      case NoVarint => BadTag
      case Varint(v, n) => Tag((v % TWO_32) / 8, v % 8, n)
  }

  lemma ReadTagRoundTrip(number: nat, wireType: nat, rest: seq<byte>)
    requires number < 0x2000_0000 && wireType < 8
    ensures ReadTag(EncodeTag(number, wireType) + rest) == Tag(number, wireType, |EncodeTag(number, wireType)|)
  {
    ReadVarintRoundTrip(number * 8 + wireType, rest);
    TagParts(number, wireType);
    assert EncodeTag(number, wireType) + rest != [];
  }

  lemma TagParts(number: nat, wireType: nat)
    requires number < 0x2000_0000 && wireType < 8
    ensures number * 8 + wireType < TWO_32
    ensures ((number * 8 + wireType) % TWO_32) / 8 == number
    ensures (number * 8 + wireType) % 8 == wireType
  {
  }

  /** A payload: its field and size, or nothing when the bytes do not hold one. Group tags
      carry no payload and are not payloads. */
  datatype Payload = NoPayload | Payload(field: Field, size: nat)

  function ReadPayload(number: nat, wireType: nat, b: seq<byte>): (r: Payload)
    ensures r.Payload? ==> r.size <= |b| && r.field.number == number
  {
    match wireType
    case 0 =>
      (match ReadVarint(b)
       case NoVarint => NoPayload
       case Varint(v, n) => Payload(VarintField(number, v), n))
    case 1 => if |b| < 8 then NoPayload else Payload(Fixed64Field(number, b[..8]), 8)
    case 2 =>
      (match ReadVarint(b)
       case NoVarint => NoPayload
       case Varint(len, n) =>
         if |b| < n + len then NoPayload else Payload(BytesField(number, b[n..n + len]), n + len))
    case 5 => if |b| < 4 then NoPayload else Payload(Fixed32Field(number, b[..4]), 4)
    case _ => NoPayload
  }

  const END_GROUP := 4

  datatype Parsed = End | EndGroup | Malformed | Record(field: Field, size: nat)

  /** The next record of a byte string. */
  function ParseRecord(b: seq<byte>): (r: Parsed)
    ensures r.End? <==> b == []
    ensures r.Record? ==> 1 <= r.size <= |b|
  {
    match ReadTag(b)
    case NoTag => End
    case BadTag => Malformed
    case Tag(number, wireType, n) =>
      if wireType == END_GROUP then EndGroup
      else
        match ReadPayload(number, wireType, b[n..])
        case NoPayload => Malformed
        case Payload(f, m) => Record(f, n + m)
  }

  lemma PayloadRoundTrip(f: Field, rest: seq<byte>)
    requires WellFormed(f)
    ensures ReadPayload(f.number, WireType(f), EncodePayload(f) + rest) == Payload(f, |EncodePayload(f)|)
  {
    match f
    case VarintField(n, v) =>
      ReadVarintRoundTrip(v, rest);
    case BytesField(n, p) =>
      var size := EncodeVarint(|p|);
      assert (size + p) + rest == size + (p + rest);
      ReadVarintRoundTrip(|p|, p + rest);
      assert (size + (p + rest))[|size|..|size| + |p|] == p;
    case Fixed64Field(n, p) =>
      assert (p + rest)[..8] == p;
    case Fixed32Field(n, p) =>
      assert (p + rest)[..4] == p;
  }

  lemma ParseTagged(number: nat, wireType: nat, tail: seq<byte>)
    requires number < 0x2000_0000 && wireType < 8 && wireType != END_GROUP
    ensures
      var tag := EncodeTag(number, wireType);
      ParseRecord(tag + tail) ==
        match ReadPayload(number, wireType, tail)
        case NoPayload => Malformed
        case Payload(f, m) => Record(f, |tag| + m)
  {
    var tag := EncodeTag(number, wireType);
    ReadTagRoundTrip(number, wireType, tail);
    assert (tag + tail)[|tag|..] == tail;
  }

  lemma RecordRoundTrip(f: Field, rest: seq<byte>)
    requires WellFormed(f)
    ensures ParseRecord(EncodeField(f) + rest) == Record(f, |EncodeField(f)|)
  {
    var tag, tail := EncodeTag(f.number, WireType(f)), EncodePayload(f) + rest;
    assert EncodeField(f) + rest == tag + tail;
    ParseTagged(f.number, WireType(f), tail);
    PayloadRoundTrip(f, rest);
  }

  // ---- messages: folding records ----

  /** The reading loop shared by all messages. `apply` is the switch over field numbers; it
      may refuse a record. An end-group tag stops the loop, as the readers do. Every turn
      consumes at least one byte. */
  function Decode<M>(apply: (M, Field) -> Option<M>, m: M, b: seq<byte>): Option<M>
    decreases |b|
  {
    match ParseRecord(b)
    case End => Some(m)
    case EndGroup => Some(m)
    case Malformed => None
    case Record(f, n) =>
      match apply(m, f)
      case None => None
      case Some(m') => Decode(apply, m', b[n..])
  }

  /** Folding a list of records into a message. */
  function ApplyAll<M>(apply: (M, Field) -> Option<M>, m: M, fs: seq<Field>): Option<M> {
    if fs == [] then Some(m)
    else
      match apply(m, fs[0])
      case None => None
      case Some(m') => ApplyAll(apply, m', fs[1..])
  }

  function EncodeFields(fs: seq<Field>): seq<byte> {
    if fs == [] then [] else EncodeField(fs[0]) + EncodeFields(fs[1..])
  }

  ghost predicate AllWellFormed(fs: seq<Field>) {
    forall i | 0 <= i < |fs| :: WellFormed(fs[i])
  }

  /** Decoding a written list of records, with anything behind it, folds them and goes on. */
  lemma {:induction false} DecodeEncoded<M>(apply: (M, Field) -> Option<M>, m: M, fs: seq<Field>, rest: seq<byte>)
    requires AllWellFormed(fs)
    ensures Decode(apply, m, EncodeFields(fs) + rest) ==
      match ApplyAll(apply, m, fs)
      case None => None
      case Some(m') => Decode(apply, m', rest)
    decreases |fs|
  {
    if fs == [] {
      assert EncodeFields(fs) + rest == rest;
    } else {
      var tail := EncodeFields(fs[1..]) + rest;
      assert EncodeFields(fs) + rest == EncodeField(fs[0]) + tail;
      RecordRoundTrip(fs[0], tail);
      assert (EncodeField(fs[0]) + tail)[|EncodeField(fs[0])|..] == tail;
      match apply(m, fs[0]) {
        case None =>
        case Some(m') => DecodeEncoded(apply, m', fs[1..], rest);
      }
    }
  }

  lemma {:induction false} EncodeFieldsConcat(fs: seq<Field>, gs: seq<Field>)
    ensures EncodeFields(fs + gs) == EncodeFields(fs) + EncodeFields(gs)
    decreases |fs|
  {
    if fs == [] {
      assert fs + gs == gs;
    } else {
      assert (fs + gs)[1..] == fs[1..] + gs;
      EncodeFieldsConcat(fs[1..], gs);
    }
  }

  lemma ApplyAllCons<M>(apply: (M, Field) -> Option<M>, m: M, f: Field, fs: seq<Field>)
    ensures ApplyAll(apply, m, [f] + fs) ==
      match apply(m, f)
      case None => None
      case Some(m') => ApplyAll(apply, m', fs)
  {
    assert ([f] + fs)[1..] == fs;
  }

  lemma {:induction false} ApplyAllConcat<M>(apply: (M, Field) -> Option<M>, m: M, fs: seq<Field>, gs: seq<Field>)
    ensures ApplyAll(apply, m, fs + gs) ==
      match ApplyAll(apply, m, fs)
      case None => None
      case Some(m') => ApplyAll(apply, m', gs)
    decreases |fs|
  {
    if fs == [] {
      assert fs + gs == gs;
    } else {
      assert (fs + gs)[1..] == fs[1..] + gs;
      match apply(m, fs[0]) {
        case None =>
        case Some(m') => ApplyAllConcat(apply, m', fs[1..], gs);
      }
    }
  }

  /** The encoding of `fs` with one more record in front of its `i`-th. */
  function EncodeWith(fs: seq<Field>, i: nat, extra: Field): seq<byte>
    requires i <= |fs|
  {
    EncodeFields(fs[..i]) + (EncodeField(extra) + EncodeFields(fs[i..]))
  }

  /** Inserting a record that the message does not know, anywhere between the records of a
      written message and in front of any continuation, changes nothing. */
  lemma UnknownAnywhere<M>(apply: (M, Field) -> Option<M>, m: M, fs: seq<Field>, i: nat, unknown: Field,
                           rest: seq<byte>)
    requires i <= |fs| && AllWellFormed(fs) && WellFormed(unknown)
    requires forall x :: apply(x, unknown) == Some(x)
    ensures Decode(apply, m, EncodeWith(fs, i, unknown) + rest) == Decode(apply, m, EncodeFields(fs) + rest)
  {
    var tail := EncodeFields(fs[i..]);
    EncodeAround(fs, i, unknown, rest);
    UnknownBehind(apply, m, fs[..i], unknown, tail + rest);
  }

  lemma EncodeAround(fs: seq<Field>, i: nat, extra: Field, rest: seq<byte>)
    requires i <= |fs|
    ensures
      var head, tail := EncodeFields(fs[..i]), EncodeFields(fs[i..]);
      && EncodeWith(fs, i, extra) + rest == head + (EncodeField(extra) + (tail + rest))
      && EncodeFields(fs) + rest == head + (tail + rest)
  {
    EncodeSplit(fs, i);
    Regroup(EncodeFields(fs[..i]), EncodeField(extra), EncodeFields(fs[i..]), rest);
  }

  lemma EncodeSplit(fs: seq<Field>, i: nat)
    requires i <= |fs|
    ensures EncodeFields(fs) == EncodeFields(fs[..i]) + EncodeFields(fs[i..])
  {
    var a, b := fs[..i], fs[i..];
    EncodeJoined(fs, a, b);
  }

  lemma EncodeJoined(fs: seq<Field>, a: seq<Field>, b: seq<Field>)
    requires fs == a + b
    ensures EncodeFields(fs) == EncodeFields(a) + EncodeFields(b)
  {
    EncodeFieldsConcat(a, b);
  }

  lemma UnknownBehind<M>(apply: (M, Field) -> Option<M>, m: M, fs: seq<Field>, unknown: Field, rest: seq<byte>)
    requires AllWellFormed(fs) && WellFormed(unknown) && forall x :: apply(x, unknown) == Some(x)
    ensures Decode(apply, m, EncodeFields(fs) + (EncodeField(unknown) + rest))
        == Decode(apply, m, EncodeFields(fs) + rest)
  {
    DecodeEncoded(apply, m, fs, EncodeField(unknown) + rest);
    DecodeEncoded(apply, m, fs, rest);
    var folded := ApplyAll(apply, m, fs);
    if folded.Some? {
      DecodeOneUnknown(apply, folded.value, unknown, rest);
    }
  }

  lemma Regroup<T>(a: seq<T>, b: seq<T>, c: seq<T>, d: seq<T>)
    ensures (a + (b + c)) + d == a + (b + (c + d))
    ensures (a + c) + d == a + (c + d)
  {
  }

  lemma DecodeOneUnknown<M>(apply: (M, Field) -> Option<M>, m: M, unknown: Field, rest: seq<byte>)
    requires WellFormed(unknown) && apply(m, unknown) == Some(m)
    ensures Decode(apply, m, EncodeField(unknown) + rest) == Decode(apply, m, rest)
  {
    RecordRoundTrip(unknown, rest);
    assert (EncodeField(unknown) + rest)[|EncodeField(unknown)|..] == rest;
  }
}
