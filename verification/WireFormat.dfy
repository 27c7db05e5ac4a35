/**
  The format itself, without the codec: what the bytes of a varint, a record and a message
  are, after the Protocol Buffers Encoding specification, sections "Base 128 Varints",
  "Message Structure", "Signed Integers" and "Length-Delimited Records"; and that writers
  write, and readers read, exactly that.
*/
module WireFormat {
  import opened Basics
  import opened Wire
  import opened Messages

  // ---- varints ----

  /** Seven bits of each byte, the least significant group first. */
  function Value(b: seq<byte>): nat {
    if b == [] then 0 else Value(b[..|b| - 1]) + (b[|b| - 1] % 128) * Pow128(|b| - 1)
  }

  /** The high bit says that another byte follows. */
  ghost predicate Terminated(b: seq<byte>) {
    b != [] && b[|b| - 1] < 128 && forall i | 0 <= i < |b| - 1 :: b[i] >= 128
  }

  ghost predicate IsVarint(b: seq<byte>, n: nat) {
    Terminated(b) && Value(b) == n
  }

  /** No group too many. */
  ghost predicate Shortest(b: seq<byte>) {
    |b| > 1 ==> b[|b| - 1] != 0
  }

  lemma {:induction false} ValueCons(x: byte, b: seq<byte>)
    ensures Value([x] + b) == x % 128 + 128 * Value(b)
    decreases |b|
  {
    if b == [] {
      assert [x] + b == [x];
      assert [x][..0] == [];
      assert Pow128(0) == 1;
    } else {
      var n := |b| - 1;
      assert ([x] + b)[..|b|] == [x] + b[..n];
      ValueCons(x, b[..n]);
      assert Pow128(|b|) == 128 * Pow128(n);
      Distribute(b[n] % 128, Pow128(n));
    }
  }

  lemma Distribute(d: nat, p: nat)
    ensures d * (128 * p) == 128 * (d * p)
  {
  }

  lemma TerminatedCons(x: byte, b: seq<byte>)
    requires b != []
    ensures Terminated([x] + b) <==> x >= 128 && Terminated(b)
  {
    var c := [x] + b;
    if Terminated(c) {
      assert c[0] >= 128;
      assert forall i | 0 <= i < |b| - 1 :: b[i] == c[i + 1];
    }
  }

  lemma OneByte(x: byte)
    requires x < 128
    ensures IsVarint([x], x) && Shortest([x])
  {
    ValueCons(x, []);
    assert [x] + [] == [x];
  }

  lemma OneMoreByte(x: byte, b: seq<byte>, n: nat)
    requires x >= 128 && n > 0 && IsVarint(b, n) && Shortest(b)
    ensures IsVarint([x] + b, x % 128 + 128 * n) && Shortest([x] + b)
  {
    ValueCons(x, b);
    TerminatedCons(x, b);
    if |b| == 1 {
      ValueCons(b[0], []);
      assert [b[0]] + [] == b;
    }
  }

  /** A number's varint has its value, ends where it says, and has no group too many. */
  lemma {:induction false} EncodedVarint(n: nat)
    ensures IsVarint(EncodeVarint(n), n) && Shortest(EncodeVarint(n))
    decreases n
  {
    if n < 128 {
      OneByte(n);
    } else {
      var q, x: byte := n / 128, 128 + n % 128;
      EncodedVarint(q);
      OneMoreByte(x, EncodeVarint(q), q);
      assert x % 128 + 128 * q == n;
    }
  }

  /** And there is no other such byte string. */
  lemma {:induction false} OnlyVarint(b: seq<byte>)
    requires Terminated(b) && Shortest(b)
    ensures b == EncodeVarint(Value(b))
    decreases |b|
  {
    var x, c := b[0], b[1..];
    assert b == [x] + c;
    ValueCons(x, c);
    if c != [] {
      TerminatedCons(x, c);
      OnlyVarint(c);
      ShortestPositive(c);
    }
  }

  lemma {:induction false} ShortestPositive(b: seq<byte>)
    requires Terminated(b) && b[|b| - 1] != 0
    ensures Value(b) > 0
  {
    MultiplePositive(b[|b| - 1] % 128, Pow128(|b| - 1));
  }

  lemma MultiplePositive(d: nat, p: nat)
    requires d > 0 && p > 0
    ensures d * p > 0
  {
  }

  /** Exactly what is written for a number. */
  lemma VarintBytes(n: nat, b: seq<byte>)
    ensures b == EncodeVarint(n) <==> IsVarint(b, n) && Shortest(b)
  {
    EncodedVarint(n);
    if IsVarint(b, n) && Shortest(b) {
      OnlyVarint(b);
    }
  }

  lemma {:induction false} ReadIsVarint(b: seq<byte>, limit: nat)
    requires DecodeVarint(b, limit).Varint?
    ensures var r := DecodeVarint(b, limit); IsVarint(b[..r.size], r.value)
    decreases limit
  {
    if b[0] < 128 {
      OneByte(b[0]);
      assert b[..1] == [b[0]];
    } else {
      var r := DecodeVarint(b[1..], limit - 1);
      ReadIsVarint(b[1..], limit - 1);
      assert b[..r.size + 1] == [b[0]] + b[1..][..r.size];
      ValueCons(b[0], b[1..][..r.size]);
      TerminatedCons(b[0], b[1..][..r.size]);
    }
  }

  lemma ReadOneByte(x: byte, rest: seq<byte>, limit: nat)
    requires limit > 0
    ensures DecodeVarint([x] + rest, limit) ==
      if x < 128 then Varint(x, 1)
      else
        match DecodeVarint(rest, limit - 1)
        case NoVarint => NoVarint
        case Varint(v, n) => Varint(x - 128 + 128 * v, n + 1)
  {
    assert ([x] + rest)[1..] == rest;
  }

  /** The same value, group by group from the first. */
  function FromFirst(b: seq<byte>): nat {
    if b == [] then 0 else b[0] % 128 + 128 * FromFirst(b[1..])
  }

  lemma {:induction false} SameValue(b: seq<byte>)
    ensures Value(b) == FromFirst(b)
    decreases |b|
  {
    if b != [] {
      SameValue(b[1..]);
      ValueCons(b[0], b[1..]);
      assert b == [b[0]] + b[1..];
    }
  }

  lemma FrontMoves<T>(x: T, d: seq<T>, rest: seq<T>)
    ensures ([x] + d) + rest == [x] + (d + rest)
    ensures [x] + [] == [x]
  {
  }

  lemma {:induction false} ReadFromFirst(c: seq<byte>, rest: seq<byte>, limit: nat)
    requires Terminated(c) && |c| <= limit
    ensures DecodeVarint(c + rest, limit) == Varint(FromFirst(c), |c|)
    decreases limit
  {
    var x, d := c[0], c[1..];
    FrontMoves(x, d, rest);
    assert c == [x] + d;
    ReadOneByte(x, d + rest, limit);
    if d != [] {
      TerminatedCons(x, d);
      ReadFromFirst(d, rest, limit - 1);
    }
  }

  lemma VarintIsRead(c: seq<byte>, rest: seq<byte>, limit: nat)
    requires Terminated(c) && |c| <= limit
    ensures DecodeVarint(c + rest, limit) == Varint(Value(c), |c|)
  {
    SameValue(c);
    ReadFromFirst(c, rest, limit);
  }

  /** Exactly what is read: the bytes up to the first without the high bit, and their value. */
  lemma VarintRead(b: seq<byte>, limit: nat, v: nat, k: nat)
    ensures DecodeVarint(b, limit) == Varint(v, k) <==> 1 <= k <= |b| && k <= limit && IsVarint(b[..k], v)
  {
    if DecodeVarint(b, limit) == Varint(v, k) {
      ReadIsVarint(b, limit);
    }
    if 1 <= k <= |b| && k <= limit && IsVarint(b[..k], v) {
      VarintIsRead(b[..k], b[k..], limit);
      assert b[..k] + b[k..] == b;
    }
  }

  /** A varint of at most ten bytes, whose bits beyond the 64th are dropped. */
  ghost predicate Reads(b: seq<byte>, n: nat) {
    |b| <= 10 && Terminated(b) && n == Value(b) % 0x1_0000_0000_0000_0000
  }

  lemma NumberRead(b: seq<byte>, n: nat, k: nat)
    ensures ReadVarint(b) == Varint(n, k) <==> k <= |b| && Reads(b[..k], n)
  {
    if k <= |b| {
      VarintRead(b, MAX_VARINT_BYTES, Value(b[..k]), k);
    }
    if ReadVarint(b).Varint? {
      ReadIsVarint(b, MAX_VARINT_BYTES);
    }
  }

  /** Signed numbers are in two's complement: what is written and what is read agree with the
      number modulo 2^64, or 2^32 for the shorter ones. */
  lemma TwosComplement(v: int64, u: nat)
    ensures ToBits(v) % 0x1_0000_0000_0000_0000 == v % 0x1_0000_0000_0000_0000
    ensures u < TWO_64 ==> Int64Of(u) % 0x1_0000_0000_0000_0000 == u
    ensures Int32Of(u) % 0x1_0000_0000 == u % 0x1_0000_0000
  {
  }

  // ---- records ----

  /** The number of the field and the wire type, as one number. */
  ghost predicate IsTag(b: seq<byte>, number: nat, wireType: nat) {
    exists n: nat :: Reads(b, n) && n % 8 == wireType && (n % 0x1_0000_0000) / 8 == number
  }

  ghost predicate IsSized(b: seq<byte>, p: seq<byte>, j: nat) {
    j <= |b| && Reads(b[..j], |p|) && b[j..] == p
  }

  /** What a record carries, and its wire type. */
  ghost predicate IsPayload(b: seq<byte>, f: Field, wireType: nat) {
    match f
    case VarintField(_, v) => wireType == 0 && Reads(b, v)
    case Fixed64Field(_, p) => wireType == 1 && |p| == 8 && b == p
    case BytesField(_, p) => wireType == 2 && exists j: nat :: IsSized(b, p, j)
    case Fixed32Field(_, p) => wireType == 5 && |p| == 4 && b == p
  }

  /** A tag of `k` bytes, and the payload. */
  ghost predicate IsRecordAt(b: seq<byte>, f: Field, k: nat, wireType: nat) {
    k <= |b| && IsTag(b[..k], f.number, wireType) && IsPayload(b[k..], f, wireType)
  }

  ghost predicate IsRecord(b: seq<byte>, f: Field) {
    exists k: nat, wireType: nat :: IsRecordAt(b, f, k, wireType)
  }

  lemma TagRead(b: seq<byte>, number: nat, wireType: nat, k: nat)
    ensures ReadTag(b) == Tag(number, wireType, k) <==> k <= |b| && IsTag(b[..k], number, wireType)
  {
    match ReadVarint(b) {
      case NoVarint =>
        if k <= |b| && IsTag(b[..k], number, wireType) {
          var n: nat :| Reads(b[..k], n) && n % 8 == wireType && (n % 0x1_0000_0000) / 8 == number;
          NumberRead(b, n, k);
          assert false;
        }
      case Varint(v, m) =>
        NumberRead(b, v, m);
        if k <= |b| && IsTag(b[..k], number, wireType) {
          var n: nat :| Reads(b[..k], n) && n % 8 == wireType && (n % 0x1_0000_0000) / 8 == number;
          NumberRead(b, n, k);
        }
    }
  }

  lemma SizedRead(number: nat, b: seq<byte>, p: seq<byte>, m: nat)
    ensures ReadPayload(number, 2, b) == Payload(BytesField(number, p), m)
      <==> m <= |b| && exists j: nat :: IsSized(b[..m], p, j)
  {
    if m <= |b| && exists j: nat :: IsSized(b[..m], p, j) {
      var j: nat :| IsSized(b[..m], p, j);
      assert b[..m][..j] == b[..j];
      NumberRead(b, |p|, j);
      assert b[j..j + |p|] == b[..m][j..];
    }
    if ReadPayload(number, 2, b) == Payload(BytesField(number, p), m) {
      var r := ReadVarint(b);
      NumberRead(b, r.value, r.size);
      assert b[..m][..r.size] == b[..r.size];
      assert IsSized(b[..m], p, r.size);
    }
  }

  lemma PayloadRead(number: nat, wireType: nat, b: seq<byte>, f: Field, m: nat)
    ensures ReadPayload(number, wireType, b) == Payload(f, m)
      <==> f.number == number && m <= |b| && IsPayload(b[..m], f, wireType)
  {
    match f
    case VarintField(_, v) => NumberRead(b, v, m);
    case BytesField(_, p) => SizedRead(number, b, p, m);
    case _ =>
  }

  lemma SliceOfPrefix<T>(b: seq<T>, n: nat, k: nat)
    requires k <= n <= |b|
    ensures b[..n][..k] == b[..k] && b[..n][k..] == b[k..][..n - k]
  {
  }

  lemma ParseParts(b: seq<byte>, number: nat, wireType: nat, k: nat, f: Field, m: nat)
    requires k <= |b| && ReadTag(b) == Tag(number, wireType, k) && wireType != 4
    requires ReadPayload(number, wireType, b[k..]) == Payload(f, m)
    ensures ParseRecord(b) == Record(f, k + m)
  {
  }

  lemma RecordIsRead(b: seq<byte>, f: Field, n: nat, k: nat, wireType: nat)
    requires n <= |b| && IsRecordAt(b[..n], f, k, wireType)
    ensures ParseRecord(b) == Record(f, n)
  {
    var c := b[k..];
    SliceOfPrefix(b, n, k);
    TagRead(b, f.number, wireType, k);
    PayloadRead(f.number, wireType, c, f, n - k);
    NotAGroup(b[..n][k..], f, wireType);
    ParseParts(b, f.number, wireType, k, f, n - k);
  }

  lemma NotAGroup(b: seq<byte>, f: Field, wireType: nat)
    requires IsPayload(b, f, wireType)
    ensures wireType != 4
  {
  }

  lemma PartsParsed(b: seq<byte>, f: Field, n: nat) returns (number: nat, wireType: nat, k: nat)
    requires ParseRecord(b) == Record(f, n)
    ensures k <= n <= |b| && ReadTag(b) == Tag(number, wireType, k)
    ensures ReadPayload(number, wireType, b[k..]) == Payload(f, n - k)
  {
    var t := ReadTag(b);
    number, wireType, k := t.number, t.wireType, t.size;
  }

  lemma ReadIsRecord(b: seq<byte>, f: Field, n: nat)
    requires ParseRecord(b) == Record(f, n)
    ensures n <= |b| && IsRecord(b[..n], f)
  {
    var number, t, k := PartsParsed(b, f, n);
    TagRead(b, number, t, k);
    PayloadRead(number, t, b[k..], f, n - k);
    SliceOfPrefix(b, n, k);
    PartsAreRecord(b[..n], f, k, t);
  }

  lemma PartsAreRecord(b: seq<byte>, f: Field, k: nat, wireType: nat)
    requires k <= |b| && IsTag(b[..k], f.number, wireType) && IsPayload(b[k..], f, wireType)
    ensures IsRecord(b, f)
  {
    assert IsRecordAt(b, f, k, wireType);
  }

  /** A reader reads exactly the records there are: whoever wrote them, in whatever way the
      format allows, and nothing else. */
  lemma RecordRead(b: seq<byte>, f: Field, n: nat)
    ensures ParseRecord(b) == Record(f, n) <==> n <= |b| && IsRecord(b[..n], f)
  {
    if ParseRecord(b) == Record(f, n) {
      ReadIsRecord(b, f, n);
    } else if n <= |b| && IsRecord(b[..n], f) {
      var k: nat, t: nat :| IsRecordAt(b[..n], f, k, t);
      RecordIsRead(b, f, n, k, t);
    }
  }

  /** An end-group tag ends the message; bytes that are neither nothing, nor a record, nor such
      a tag are an error. */
  lemma ReadingEnds<M>(apply: (M, Field) -> Option<M>, m: M, b: seq<byte>)
    ensures ParseRecord(b) == EndGroup <==> exists k: nat, number: nat :: k <= |b| && IsTag(b[..k], number, 4)
    ensures b == [] || ParseRecord(b) == EndGroup ==> Decode(apply, m, b) == Some(m)
    ensures ParseRecord(b) == Malformed ==> Decode(apply, m, b) == None
  {
    if k: nat, number: nat :| k <= |b| && IsTag(b[..k], number, 4) {
      TagRead(b, number, 4, k);
    }
    if ParseRecord(b) == EndGroup {
      var t := ReadTag(b);
      TagRead(b, t.number, t.wireType, t.size);
    }
  }

  /** What is written for a field is such a record. */
  lemma RecordWritten(f: Field)
    requires WellFormed(f)
    ensures IsRecord(EncodeField(f), f)
  {
    var b := EncodeField(f);
    RecordRoundTrip(f, []);
    assert b + [] == b && b[..|b|] == b;
    ReadIsRecord(b, f, |b|);
  }

  /** The number of a wire type. */
  function CodeOf(f: Field): nat {
    match f
    case VarintField(_, _) => 0
    case Fixed64Field(_, _) => 1
    case BytesField(_, _) => 2
    case Fixed32Field(_, _) => 5
  }

  /** It begins with its tag, eight times the number plus the wire type, in the shortest way. */
  lemma TagWritten(f: Field) returns (tag: seq<byte>)
    ensures tag <= EncodeField(f) && IsVarint(tag, 8 * f.number + CodeOf(f)) && Shortest(tag)
  {
    tag := EncodeTag(f.number, WireType(f));
    EncodedVarint(f.number * 8 + WireType(f));
  }

  /** One record after the other. */
  ghost predicate AreRecords(b: seq<byte>, fs: seq<Field>)
    decreases |fs|
  {
    if fs == [] then b == []
    else exists n: nat :: n <= |b| && IsRecord(b[..n], fs[0]) && AreRecords(b[n..], fs[1..])
  }

  lemma {:induction false} FieldsWritten(fs: seq<Field>)
    requires AllWellFormed(fs)
    ensures AreRecords(EncodeFields(fs), fs)
    decreases |fs|
  {
    if fs != [] {
      var b, first, n := EncodeFields(fs), EncodeField(fs[0]), |EncodeField(fs[0])|;
      FieldsWritten(fs[1..]);
      RecordWritten(fs[0]);
      assert b[..n] == first && b[n..] == EncodeFields(fs[1..]);
    }
  }

  // ---- the fields of the messages ----

  /** Each number once, in order, none above the last one. */
  ghost predicate Increasing(fs: seq<Field>, last: nat) {
    && (forall i, j | 0 <= i < j < |fs| :: fs[i].number < fs[j].number)
    && (forall i | 0 <= i < |fs| :: 1 <= fs[i].number <= last)
  }

  /** The field with that number is `f`, or there is none. */
  ghost predicate Carries(fs: seq<Field>, number: nat, f: Option<Field>) {
    forall g :: g in fs && g.number == number <==> f == Some(g)
  }

  /** A number other than zero is a varint, of ten bytes when it is negative. */
  function OfInt(number: nat, v: int64): Option<Field> {
    if v == 0 then None
    else Some(VarintField(number, if v < 0 then 0x1_0000_0000_0000_0000 + v else v))
  }

  function OfBlob(number: nat, b: Blob): Option<Field> {
    if b == [] then None else Some(BytesField(number, b))
  }

  ghost predicate OnlyOf(x: seq<Field>, f: Option<Field>) {
    match f case None => x == [] case Some(g) => x == [g]
  }

  /** One more number, with its field or without: it is carried, and the others still are. */
  lemma OneMoreField(fs: seq<Field>, last: nat, x: seq<Field>, f: Option<Field>)
    requires Increasing(fs, last) && OnlyOf(x, f) && (f.Some? ==> f.value.number == last + 1)
    ensures Increasing(fs + x, last + 1) && Carries(fs + x, last + 1, f)
  {
    forall g ensures g in fs + x <==> g in fs || f == Some(g) {
    }
  }

  lemma StillCarries(fs: seq<Field>, last: nat, x: seq<Field>, f: Option<Field>, number: nat, g: Option<Field>)
    requires Increasing(fs, last) && OnlyOf(x, f) && (f.Some? ==> f.value.number == last + 1)
    requires number <= last && Carries(fs, number, g)
    ensures Carries(fs + x, number, g)
  {
    forall h ensures h in fs + x <==> h in fs || f == Some(h) {
    }
  }

  /** The first `k` numbers carry these fields, in this order. */
  ghost predicate CarriesAll(fs: seq<Field>, table: seq<Option<Field>>) {
    Increasing(fs, |table|) && forall k | 0 <= k < |table| :: Carries(fs, k + 1, table[k])
  }

  lemma OneMoreRow(fs: seq<Field>, table: seq<Option<Field>>, x: seq<Field>, f: Option<Field>)
    requires CarriesAll(fs, table) && OnlyOf(x, f) && (f.Some? ==> f.value.number == |table| + 1)
    ensures CarriesAll(fs + x, table + [f])
  {
    OneMoreField(fs, |table|, x, f);
    forall k | 0 <= k < |table| ensures Carries(fs + x, k + 1, table[k]) {
      StillCarries(fs, |table|, x, f, k + 1, table[k]);
    }
  }

  function SignedMsgHeaderTable(m: SignedMsg): seq<Option<Field>> {
    [OfInt(1, m.id), OfInt(2, m.typ), OfBlob(3, m.receiver), OfBlob(4, m.sender)]
  }

  function SignedMsgTable(m: SignedMsg): seq<Option<Field>> {
    SignedMsgHeaderTable(m) + [OfBlob(5, m.body), OfBlob(6, m.sign)]
  }

  function MessageTable(m: Message): seq<Option<Field>> {
    [OfBlob(1, m.msgId), OfBlob(2, m.receiver), OfInt(3, m.timestamp), OfBlob(4, m.encryptedMsg)]
  }

  function MsgReceiptTable(m: MsgReceipt): seq<Option<Field>> {
    [OfBlob(1, m.msgId), OfInt(2, m.state)]
  }

  lemma OneRow(x: seq<Field>, f: Option<Field>)
    requires OnlyOf(x, f) && (f.Some? ==> f.value.number == 1)
    ensures CarriesAll(x, [f])
  {
  }

  /** Row `number` of a table, as written. */
  ghost predicate IsRow(x: seq<Field>, f: Option<Field>, number: nat) {
    OnlyOf(x, f) && (f.Some? ==> f.value.number == number)
  }

  lemma TwoRows(x: seq<Field>, y: seq<Field>, f: Option<Field>, g: Option<Field>)
    requires IsRow(x, f, 1) && IsRow(y, g, 2)
    ensures CarriesAll(x + y, [f, g])
  {
    OneRow(x, f);
    OneMoreRow(x, [f], y, g);
    assert [f] + [g] == [f, g];
  }

  lemma ThreeRows(xy: seq<Field>, z: seq<Field>, f: Option<Field>, g: Option<Field>, h: Option<Field>)
    requires CarriesAll(xy, [f, g]) && IsRow(z, h, 3)
    ensures CarriesAll(xy + z, [f, g, h])
  {
    OneMoreRow(xy, [f, g], z, h);
    assert [f, g] + [h] == [f, g, h];
  }

  lemma FourRows(xyz: seq<Field>, w: seq<Field>, f: Option<Field>, g: Option<Field>, h: Option<Field>,
                 e: Option<Field>)
    requires CarriesAll(xyz, [f, g, h]) && IsRow(w, e, 4)
    ensures CarriesAll(xyz + w, [f, g, h, e])
  {
    OneMoreRow(xyz, [f, g, h], w, e);
    assert [f, g, h] + [e] == [f, g, h, e];
  }

  lemma SignedMsgHeaderCarries(m: SignedMsg)
    ensures CarriesAll(SignedMsgHeader(m), SignedMsgHeaderTable(m))
  {
    var x, y, z := IntField(1, m.id), IntField(2, m.typ), BlobField(3, m.receiver);
    TwoRows(x, y, OfInt(1, m.id), OfInt(2, m.typ));
    ThreeRows(x + y, z, OfInt(1, m.id), OfInt(2, m.typ), OfBlob(3, m.receiver));
    FourRows(x + y + z, BlobField(4, m.sender), OfInt(1, m.id), OfInt(2, m.typ), OfBlob(3, m.receiver),
             OfBlob(4, m.sender));
  }

  lemma SignedMsgCarries(m: SignedMsg)
    ensures CarriesAll(SignedMsgFields(m), SignedMsgTable(m))
  {
    var header, table := SignedMsgHeader(m), SignedMsgHeaderTable(m);
    var x5, x6 := BlobField(5, m.body), BlobField(6, m.sign);
    SignedMsgHeaderCarries(m);
    OneMoreRow(header, table, x5, OfBlob(5, m.body));
    OneMoreRow(header + x5, table + [OfBlob(5, m.body)], x6, OfBlob(6, m.sign));
    assert table + [OfBlob(5, m.body)] + [OfBlob(6, m.sign)] == SignedMsgTable(m);
  }

  lemma MessageCarries(m: Message)
    ensures CarriesAll(MessageFields(m), MessageTable(m))
  {
    var x, y, z := BlobField(1, m.msgId), BlobField(2, m.receiver), IntField(3, m.timestamp);
    TwoRows(x, y, OfBlob(1, m.msgId), OfBlob(2, m.receiver));
    ThreeRows(x + y, z, OfBlob(1, m.msgId), OfBlob(2, m.receiver), OfInt(3, m.timestamp));
    FourRows(x + y + z, BlobField(4, m.encryptedMsg), OfBlob(1, m.msgId), OfBlob(2, m.receiver),
             OfInt(3, m.timestamp), OfBlob(4, m.encryptedMsg));
  }

  lemma MsgReceiptCarries(m: MsgReceipt)
    ensures CarriesAll(MsgReceiptFields(m), MsgReceiptTable(m))
  {
    TwoRows(BlobField(1, m.msgId), IntField(2, m.state), OfBlob(1, m.msgId), OfInt(2, m.state));
  }

  // ---- what is written ----

  /** The bytes are records that carry this table. */
  ghost predicate IsWritten(b: seq<byte>, table: seq<Option<Field>>) {
    exists fs :: AreRecords(b, fs) && CarriesAll(fs, table)
  }

  /** The bytes of a signed message: a record for each field that is not empty, with the
      numbers of the message definition, in their order. */
  lemma SignedMsgBytes(m: SignedMsg)
    ensures IsWritten(EncodeSignedMsg(m), SignedMsgTable(m))
  {
    SignedMsgCarries(m);
    FieldsWritten(SignedMsgFields(m));
  }

  lemma MessageBytes(m: Message)
    ensures IsWritten(EncodeMessage(m), MessageTable(m))
  {
    MessageCarries(m);
    FieldsWritten(MessageFields(m));
  }

  lemma MsgReceiptBytes(m: MsgReceipt)
    ensures IsWritten(EncodeMsgReceipt(m), MsgReceiptTable(m))
  {
    MsgReceiptCarries(m);
    FieldsWritten(MsgReceiptFields(m));
  }

  ghost predicate IsEntry(f: Field, table: seq<Option<Field>>) {
    f.BytesField? && f.number == 1 && IsWritten(f.payload, table)
  }

  /** A pack is a record with number 1 for each message, in order, around its bytes. */
  ghost predicate MessagePackTable(fs: seq<Field>, ms: seq<Message>) {
    |fs| == |ms| && forall i | 0 <= i < |fs| :: IsEntry(fs[i], MessageTable(ms[i]))
  }

  ghost predicate ReceiptPackTable(fs: seq<Field>, rs: seq<MsgReceipt>) {
    |fs| == |rs| && forall i | 0 <= i < |fs| :: IsEntry(fs[i], MsgReceiptTable(rs[i]))
  }

  lemma MessageEntry(m: Message)
    ensures IsEntry(BytesField(1, EncodeFields(MessageFields(m))), MessageTable(m))
  {
    MessageBytes(m);
  }

  lemma ReceiptEntry(m: MsgReceipt)
    ensures IsEntry(BytesField(1, EncodeFields(MsgReceiptFields(m))), MsgReceiptTable(m))
  {
    MsgReceiptBytes(m);
  }

  lemma {:induction false} MessagePackHasFields(ms: seq<Message>)
    ensures MessagePackTable(MessagePackFields(ms), ms)
  {
    if ms != [] {
      MessageEntry(ms[0]);
      MessagePackHasFields(ms[1..]);
      forall i | 0 <= i < |ms| ensures IsEntry(MessagePackFields(ms)[i], MessageTable(ms[i])) {
        if i > 0 {
          assert IsEntry(MessagePackFields(ms[1..])[i - 1], MessageTable(ms[1..][i - 1]));
        }
      }
    }
  }

  lemma {:induction false} ReceiptPackHasFields(rs: seq<MsgReceipt>)
    ensures ReceiptPackTable(ReceiptPackFields(rs), rs)
  {
    if rs != [] {
      ReceiptEntry(rs[0]);
      ReceiptPackHasFields(rs[1..]);
      forall i | 0 <= i < |rs| ensures IsEntry(ReceiptPackFields(rs)[i], MsgReceiptTable(rs[i])) {
        if i > 0 {
          assert IsEntry(ReceiptPackFields(rs[1..])[i - 1], MsgReceiptTable(rs[1..][i - 1]));
        }
      }
    }
  }

  lemma MessagePackBytes(p: MessagePack)
    ensures exists fs :: AreRecords(EncodeMessagePack(p), fs) && MessagePackTable(fs, p.msgs)
  {
    MessagePackHasFields(p.msgs);
    MessagePackWellFormed(p.msgs);
    FieldsWritten(MessagePackFields(p.msgs));
  }

  lemma ReceiptPackBytes(p: ReceiptPack)
    ensures exists fs :: AreRecords(EncodeReceiptPack(p), fs) && ReceiptPackTable(fs, p.receipts)
  {
    ReceiptPackHasFields(p.receipts);
    ReceiptPackWellFormed(p.receipts);
    FieldsWritten(ReceiptPackFields(p.receipts));
  }

  // ---- what is refused ----

  /** A field of the message with a wire type it does not have. */
  ghost predicate Misfit(f: Field, numbers: set<nat>, blobs: set<nat>) {
    (f.number in numbers && !f.VarintField?) || (f.number in blobs && !f.BytesField?)
  }

  lemma MisfitsRefused(f: Field, rest: seq<byte>)
    requires WellFormed(f)
    ensures Misfit(f, {1, 2}, {3, 4, 5, 6}) ==> DecodeSignedMsg(EncodeField(f) + rest) == None
    ensures Misfit(f, {3}, {1, 2, 4}) ==> DecodeMessage(EncodeField(f) + rest) == None
    ensures Misfit(f, {2}, {1}) ==> DecodeMsgReceipt(EncodeField(f) + rest) == None
    ensures Misfit(f, {}, {1}) ==> DecodeMessagePack(EncodeField(f) + rest) == None
    ensures Misfit(f, {}, {1}) ==> DecodeReceiptPack(EncodeField(f) + rest) == None
  {
    RecordRoundTrip(f, rest);
  }

  // ---- examples ----

  /** The specification's own 150, and 300. */
  lemma Examples()
    ensures EncodeVarint(150) == [150, 1] && EncodeVarint(300) == [172, 2]
  {
    assert EncodeVarint(1) == [1] && EncodeVarint(2) == [2];
  }

  lemma ExampleFields()
    ensures EncodeField(VarintField(1, 300)) == [8, 172, 2] && EncodeField(VarintField(2, 1)) == [16, 1]
    ensures EncodeField(BytesField(3, [97])) == [26, 1, 97] && EncodeField(BytesField(4, [98])) == [34, 1, 98]
    ensures EncodeField(BytesField(5, [99])) == [42, 1, 99] && EncodeField(BytesField(6, [100])) == [50, 1, 100]
  {
    Examples();
  }

  lemma EncodeFirst(f: Field, fs: seq<Field>)
    ensures EncodeFields([f] + fs) == EncodeField(f) + EncodeFields(fs)
  {
    assert ([f] + fs)[1..] == fs;
  }

  lemma ExampleTail()
    ensures EncodeFields([BytesField(4, [98]), BytesField(5, [99]), BytesField(6, [100])])
         == [34, 1, 98, 42, 1, 99, 50, 1, 100]
  {
    ExampleFields();
    var f4, f5, f6 := BytesField(4, [98]), BytesField(5, [99]), BytesField(6, [100]);
    EncodeFirst(f6, []);
    EncodeFirst(f5, [f6]);
    EncodeFirst(f4, [f5, f6]);
    assert [f6] + [] == [f6] && [f5] + [f6] == [f5, f6] && [f4] + [f5, f6] == [f4, f5, f6];
  }

  lemma ExampleHead(tail: seq<Field>)
    ensures EncodeFields([VarintField(1, 300)] + ([VarintField(2, 1)] + ([BytesField(3, [97])] + tail)))
         == [8, 172, 2] + ([16, 1] + ([26, 1, 97] + EncodeFields(tail)))
  {
    ExampleFields();
    var f1, f2, f3 := VarintField(1, 300), VarintField(2, 1), BytesField(3, [97]);
    EncodeFirst(f3, tail);
    EncodeFirst(f2, [f3] + tail);
    EncodeFirst(f1, [f2] + ([f3] + tail));
  }

  lemma ExampleMessageFields()
    ensures SignedMsgFields(SignedMsg(300, 1, [97], [98], [99], [100]))
         == [VarintField(1, 300)] + ([VarintField(2, 1)] + ([BytesField(3, [97])]
            + [BytesField(4, [98]), BytesField(5, [99]), BytesField(6, [100])]))
  {
  }

  lemma ExampleBytes()
    ensures [8, 172, 2] + ([16, 1] + ([26, 1, 97] + [34, 1, 98, 42, 1, 99, 50, 1, 100]))
         == [8, 172, 2, 16, 1, 26, 1, 97, 34, 1, 98, 42, 1, 99, 50, 1, 100]
  {
  }

  /** A whole message. */
  lemma ExampleMessage()
    ensures EncodeSignedMsg(SignedMsg(300, 1, [97], [98], [99], [100]))
         == [8, 172, 2, 16, 1, 26, 1, 97, 34, 1, 98, 42, 1, 99, 50, 1, 100]
  {
    ExampleMessageFields();
    ExampleHead([BytesField(4, [98]), BytesField(5, [99]), BytesField(6, [100])]);
    ExampleTail();
    ExampleBytes();
  }
}
