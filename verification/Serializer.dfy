/**
  The generated readers and writers as they run: writers append to a buffer field by
  field, readers loop over the tags of a buffer and switch on the field number. Each is
  proved equal to the encoding and decoding functions of `Messages`.
*/
module Serializer {
  import opened Basics
  import opened Wire
  import opened Messages

  class BinaryWriter {
    var buffer: seq<byte>

    constructor ()
      ensures buffer == []
    {
      buffer := [];
    }

    /** Int32, int64 and enum fields are all written as 64-bit varints. */
    method WriteInt(number: nat, v: int64)
      modifies this
      ensures buffer == old(buffer) + EncodeField(VarintField(number, ToBits(v)))
    {
      buffer := buffer + EncodeTag(number, 0);
      buffer := buffer + EncodeVarint(ToBits(v));
    }

    /** String, bytes and nested message fields: a length and that many bytes. */
    method WriteDelimited(number: nat, b: seq<byte>)
      modifies this
      ensures buffer == old(buffer) + EncodeField(BytesField(number, b))
    {
      Append2(buffer, EncodeTag(number, 2), EncodeVarint(|b|) + b);
      buffer := buffer + EncodeTag(number, 2);
      buffer := buffer + (EncodeVarint(|b|) + b);
    }
  }

  // ---- writing ----

  function IntBytes(number: nat, v: int64): seq<byte> {
    EncodeFields(IntField(number, v))
  }

  function BlobBytes(number: nat, b: Blob): seq<byte> {
    EncodeFields(BlobField(number, b))
  }

  lemma OneField(f: Field)
    ensures EncodeFields([f]) == EncodeField(f)
  {
  }

  method WriteIntField(writer: BinaryWriter, number: nat, v: int64)
    modifies writer
    ensures writer.buffer == old(writer.buffer) + IntBytes(number, v)
  {
    if v != 0 {
      writer.WriteInt(number, v);
      OneField(VarintField(number, ToBits(v)));
    }
  }

  method WriteBlobField(writer: BinaryWriter, number: nat, b: Blob)
    modifies writer
    ensures writer.buffer == old(writer.buffer) + BlobBytes(number, b)
  {
    if |b| > 0 {
      writer.WriteDelimited(number, b);
      OneField(BytesField(number, b));
    }
  }

  lemma Append2<T>(o: seq<T>, a: seq<T>, b: seq<T>)
    ensures o + a + b == o + (a + b)
  {
  }

  lemma Append4<T>(o: seq<T>, a: seq<T>, b: seq<T>, c: seq<T>, d: seq<T>)
    ensures o + a + b + c + d == o + (a + b + c + d)
  {
  }

  lemma Concat4(a: seq<Field>, b: seq<Field>, c: seq<Field>, d: seq<Field>)
    ensures EncodeFields(a + b + c + d) == EncodeFields(a) + EncodeFields(b) + EncodeFields(c) + EncodeFields(d)
  {
    EncodeFieldsConcat(a, b);
    EncodeFieldsConcat(a + b, c);
    EncodeFieldsConcat(a + b + c, d);
  }

  method SerializeSignedMsg(m: SignedMsg, writer: BinaryWriter)
    modifies writer
    ensures writer.buffer == old(writer.buffer) + EncodeSignedMsg(m)
  {
    WriteIntField(writer, 1, m.id);
    WriteIntField(writer, 2, m.typ);
    WriteBlobField(writer, 3, m.receiver);
    WriteBlobField(writer, 4, m.sender);
    WriteBlobField(writer, 5, m.body);
    WriteBlobField(writer, 6, m.sign);
    SignedMsgBytes(old(writer.buffer), m);
  }

  lemma SignedMsgBytes(o: seq<byte>, m: SignedMsg)
    ensures o + IntBytes(1, m.id) + IntBytes(2, m.typ) + BlobBytes(3, m.receiver) + BlobBytes(4, m.sender)
            + BlobBytes(5, m.body) + BlobBytes(6, m.sign) == o + EncodeSignedMsg(m)
  {
    var header := EncodeFields(SignedMsgHeader(m));
    Concat4(IntField(1, m.id), IntField(2, m.typ), BlobField(3, m.receiver), BlobField(4, m.sender));
    Append4(o, IntBytes(1, m.id), IntBytes(2, m.typ), BlobBytes(3, m.receiver), BlobBytes(4, m.sender));
    EncodeFieldsConcat(SignedMsgHeader(m), BlobField(5, m.body));
    EncodeFieldsConcat(SignedMsgHeader(m) + BlobField(5, m.body), BlobField(6, m.sign));
    Append2(o, header, BlobBytes(5, m.body));
    Append2(o, header + BlobBytes(5, m.body), BlobBytes(6, m.sign));
  }

  method SerializeMessage(m: Message, writer: BinaryWriter)
    modifies writer
    ensures writer.buffer == old(writer.buffer) + EncodeFields(MessageFields(m))
  {
    WriteBlobField(writer, 1, m.msgId);
    WriteBlobField(writer, 2, m.receiver);
    WriteIntField(writer, 3, m.timestamp);
    WriteBlobField(writer, 4, m.encryptedMsg);
    MessageBytes(old(writer.buffer), m);
  }

  lemma MessageBytes(o: seq<byte>, m: Message)
    ensures o + BlobBytes(1, m.msgId) + BlobBytes(2, m.receiver) + IntBytes(3, m.timestamp)
        + BlobBytes(4, m.encryptedMsg)
         == o + EncodeFields(MessageFields(m))
  {
    Concat4(BlobField(1, m.msgId), BlobField(2, m.receiver), IntField(3, m.timestamp), BlobField(4, m.encryptedMsg));
    Append4(o, BlobBytes(1, m.msgId), BlobBytes(2, m.receiver), IntBytes(3, m.timestamp), BlobBytes(4, m.encryptedMsg));
  }

  method SerializeMsgReceipt(m: MsgReceipt, writer: BinaryWriter)
    modifies writer
    ensures writer.buffer == old(writer.buffer) + EncodeFields(MsgReceiptFields(m))
  {
    WriteBlobField(writer, 1, m.msgId);
    WriteIntField(writer, 2, m.state);
    MsgReceiptBytes(old(writer.buffer), m);
  }

  lemma MsgReceiptBytes(o: seq<byte>, m: MsgReceipt)
    ensures o + BlobBytes(1, m.msgId) + IntBytes(2, m.state) == o + EncodeFields(MsgReceiptFields(m))
  {
    EncodeFieldsConcat(BlobField(1, m.msgId), IntField(2, m.state));
    Append2(o, BlobBytes(1, m.msgId), IntBytes(2, m.state));
  }

  method SerializeMessagePack(p: MessagePack, writer: BinaryWriter)
    modifies writer
    ensures writer.buffer == old(writer.buffer) + EncodeMessagePack(p)
  {
    if |p.msgs| > 0 {
      WriteRepeatedMessage(writer, p.msgs);
    }
    MessagesLeft(p.msgs, 0);
  }

  method WriteRepeatedMessage(writer: BinaryWriter, ms: seq<Message>)
    modifies writer
    ensures writer.buffer == old(writer.buffer) + MessagesFrom(ms, 0)
  {
    for i := 0 to |ms|
      invariant writer.buffer + MessagesFrom(ms, i) == old(writer.buffer) + MessagesFrom(ms, 0)
    {
      WriteNestedMessage(writer, ms, i);
    }
    MessagesLeft(ms, |ms|);
  }

  method WriteNestedMessage(writer: BinaryWriter, ms: seq<Message>, i: nat)
    requires i < |ms|
    modifies writer
    ensures writer.buffer + MessagesFrom(ms, i + 1) == old(writer.buffer) + MessagesFrom(ms, i)
  {
    var nested := new BinaryWriter();
    SerializeMessage(ms[i], nested);
    assert nested.buffer == EncodeFields(MessageFields(ms[i]));
    writer.WriteDelimited(1, nested.buffer);
    MessagesLeft(ms, i);
    Append2(old(writer.buffer), EncodeField(BytesField(1, nested.buffer)), MessagesFrom(ms, i + 1));
  }

  /** The bytes of the messages from the `i`-th on. */
  function MessagesFrom(ms: seq<Message>, i: nat): seq<byte>
    requires i <= |ms|
  {
    EncodeFields(MessagePackFields(ms[i..]))
  }

  lemma MessagesLeft(ms: seq<Message>, i: nat)
    requires i <= |ms|
    ensures i == |ms| ==> forall b: seq<byte> :: b + MessagesFrom(ms, i) == b
    ensures i == 0 ==> MessagesFrom(ms, i) == EncodeFields(MessagePackFields(ms))
    ensures i < |ms| ==>
      MessagesFrom(ms, i) == EncodeField(BytesField(1, EncodeFields(MessageFields(ms[i])))) + MessagesFrom(ms, i + 1)
  {
  }

  method SerializeReceiptPack(p: ReceiptPack, writer: BinaryWriter)
    modifies writer
    ensures writer.buffer == old(writer.buffer) + EncodeReceiptPack(p)
  {
    if |p.receipts| > 0 {
      WriteRepeatedMsgReceipt(writer, p.receipts);
    }
    ReceiptsLeft(p.receipts, 0);
  }

  method WriteRepeatedMsgReceipt(writer: BinaryWriter, rs: seq<MsgReceipt>)
    modifies writer
    ensures writer.buffer == old(writer.buffer) + ReceiptsFrom(rs, 0)
  {
    for i := 0 to |rs|
      invariant writer.buffer + ReceiptsFrom(rs, i) == old(writer.buffer) + ReceiptsFrom(rs, 0)
    {
      WriteNestedMsgReceipt(writer, rs, i);
    }
    ReceiptsLeft(rs, |rs|);
  }

  method WriteNestedMsgReceipt(writer: BinaryWriter, rs: seq<MsgReceipt>, i: nat)
    requires i < |rs|
    modifies writer
    ensures writer.buffer + ReceiptsFrom(rs, i + 1) == old(writer.buffer) + ReceiptsFrom(rs, i)
  {
    var nested := new BinaryWriter();
    SerializeMsgReceipt(rs[i], nested);
    assert nested.buffer == EncodeFields(MsgReceiptFields(rs[i]));
    writer.WriteDelimited(1, nested.buffer);
    ReceiptsLeft(rs, i);
    Append2(old(writer.buffer), EncodeField(BytesField(1, nested.buffer)), ReceiptsFrom(rs, i + 1));
  }

  /** The bytes of the receipts from the `i`-th on. */
  function ReceiptsFrom(rs: seq<MsgReceipt>, i: nat): seq<byte>
    requires i <= |rs|
  {
    EncodeFields(ReceiptPackFields(rs[i..]))
  }

  lemma ReceiptsLeft(rs: seq<MsgReceipt>, i: nat)
    requires i <= |rs|
    ensures i == |rs| ==> forall b: seq<byte> :: b + ReceiptsFrom(rs, i) == b
    ensures i == 0 ==> ReceiptsFrom(rs, i) == EncodeFields(ReceiptPackFields(rs))
    ensures i < |rs| ==>
      ReceiptsFrom(rs, i) == EncodeField(BytesField(1, EncodeFields(MsgReceiptFields(rs[i])))) + ReceiptsFrom(rs, i + 1)
  {
  }

  // ---- reading ----

  /** What reading the payload of one tag comes to: a failure, or a converted value and the
      bytes behind it. */
  ghost predicate Converted<T>(convert: Field -> Option<T>, number: nat, wireType: nat, before: seq<byte>,
                               failed: bool, value: T, behind: seq<byte>) {
    match ReadPayload(number, wireType, before)
    case NoPayload => failed
    case Payload(f, size) =>
      match convert(f)
      case None => failed
      case Some(v) => !failed && value == v && behind == before[size..]
  }

  /** The same for one turn of a message's switch. */
  ghost predicate Read<M>(apply: (M, Field) -> Option<M>, m: M, number: nat, wireType: nat, before: seq<byte>,
                          failed: bool, m': M, behind: seq<byte>) {
    match ReadPayload(number, wireType, before)
    case NoPayload => failed
    case Payload(f, size) =>
      match apply(m, f)
      case None => failed
      case Some(v) => !failed && m' == v && behind == before[size..]
  }

  /** One turn of the reading loop. */
  lemma DecodeStep<M>(apply: (M, Field) -> Option<M>, m: M, b: seq<byte>)
    requires ReadTag(b).Tag? && ReadTag(b).wireType != END_GROUP
    ensures
      var Tag(n, w, size) := ReadTag(b);
      Decode(apply, m, b) ==
        match ReadPayload(n, w, b[size..])
        case NoPayload => None
        case Payload(f, k) =>
          match apply(m, f)
          case None => None
          case Some(m') => Decode(apply, m', b[size..][k..])
  {
    ParseTag(b);
    var Tag(n, w, size) := ReadTag(b);
    match ReadPayload(n, w, b[size..])
    case NoPayload =>
    case Payload(f, k) => assert b[size..][k..] == b[size + k..];
  }

  lemma ParseTag(b: seq<byte>)
    requires ReadTag(b).Tag? && ReadTag(b).wireType != END_GROUP
    ensures
      var Tag(n, w, size) := ReadTag(b);
      ParseRecord(b) ==
        match ReadPayload(n, w, b[size..])
        case NoPayload => Malformed
        case Payload(f, k) => Record(f, size + k)
  {
  }

  class BinaryReader {
    var rest: seq<byte>
    var number: nat
    var wireType: nat
    var failed: bool

    constructor (bytes: seq<byte>)
      ensures rest == bytes && !failed
    {
      rest, number, wireType, failed := bytes, 0, 0, false;
    }

    /** Reads the next tag; false at the end of the input. */
    method NextField() returns (more: bool)
      requires !failed
      modifies this
      ensures match ReadTag(old(rest))
              case NoTag => !more && !failed && rest == []
              case BadTag => !more && failed
              case Tag(n, w, size) => more && !failed && number == n && wireType == w && rest == old(rest)[size..]
    {
      match ReadTag(rest)
      case NoTag => more := false;
      case BadTag => more := false; failed := true;
      case Tag(n, w, size) => more := true; number, wireType, rest := n, w, rest[size..];
    }

    predicate IsEndGroup()
      reads this
    {
      wireType == END_GROUP
    }

    /** Consumes the payload announced by the tag just read. */
    method ReadRecord() returns (f: Option<Field>)
      requires !failed
      modifies this`rest, this`failed
      ensures match ReadPayload(number, wireType, old(rest))
              case NoPayload => failed && f.None?
              case Payload(g, size) => !failed && f == Some(g) && rest == old(rest)[size..]
    {
      match ReadPayload(number, wireType, rest)
      case NoPayload => f := None; failed := true;
      case Payload(g, size) => f := Some(g); rest := rest[size..];
    }

    method SkipField()
      requires !failed
      modifies this`rest, this`failed
      ensures match ReadPayload(number, wireType, old(rest))
              case NoPayload => failed
              case Payload(g, size) => !failed && rest == old(rest)[size..]
    {
      var _ := ReadRecord();
    }

    method ReadInt32() returns (v: int32)
      requires !failed
      modifies this`rest, this`failed
      ensures Converted(Int32Value, number, wireType, old(rest), failed, v, rest)
    {
      v := 0;
      var f := ReadRecord();
      if f.Some? {
        match Int32Value(f.value)
        case None => failed := true;
        case Some(x) => v := x;
      }
    }

    method ReadInt64() returns (v: int64)
      requires !failed
      modifies this`rest, this`failed
      ensures Converted(Int64Value, number, wireType, old(rest), failed, v, rest)
    {
      v := 0;
      var f := ReadRecord();
      if f.Some? {
        match Int64Value(f.value)
        case None => failed := true;
        case Some(x) => v := x;
      }
    }

    method ReadBytes() returns (v: Blob)
      requires !failed
      modifies this`rest, this`failed
      ensures Converted(BlobOf, number, wireType, old(rest), failed, v, rest)
    {
      v := [];
      var f := ReadRecord();
      if f.Some? {
        match BlobOf(f.value)
        case None => failed := true;
        case Some(x) => v := x;
      }
    }
  }

  method ReadSignedMsgField(reader: BinaryReader, msg: SignedMsg) returns (msg': SignedMsg)
    requires !reader.failed && reader.wireType != END_GROUP
    modifies reader`rest, reader`failed
    ensures Read(ApplySignedMsg, msg, reader.number, reader.wireType, old(reader.rest), reader.failed, msg',
                 reader.rest)
  {
    msg' := msg;
    match reader.number
    case 1 =>
      var v := reader.ReadInt32();
      msg' := msg.(id := v);
    case 2 =>
      var v := reader.ReadInt32();
      msg' := msg.(typ := v);
    case 3 =>
      var v := reader.ReadBytes();
      msg' := msg.(receiver := v);
    case 4 =>
      var v := reader.ReadBytes();
      msg' := msg.(sender := v);
    case 5 =>
      var v := reader.ReadBytes();
      msg' := msg.(body := v);
    case 6 =>
      var v := reader.ReadBytes();
      msg' := msg.(sign := v);
    case _ =>
      reader.SkipField();
  }

  method DeserializeSignedMsg(reader: BinaryReader) returns (r: Option<SignedMsg>)
    requires !reader.failed
    modifies reader
    ensures r == DecodeSignedMsg(old(reader.rest))
  {
    var msg := EMPTY_SIGNED_MSG;
    while true
      invariant !reader.failed
      invariant Decode(ApplySignedMsg, msg, reader.rest) == DecodeSignedMsg(old(reader.rest))
      decreases |reader.rest|
    {
      ghost var before := reader.rest;
      var more := reader.NextField();
      if reader.failed { return None; }
      if !more { break; }
      if reader.IsEndGroup() { break; }
      DecodeStep(ApplySignedMsg, msg, before);
      msg := ReadSignedMsgField(reader, msg);
      if reader.failed { return None; }
    }
    return Some(msg);
  }

  method ReadMessageField(reader: BinaryReader, msg: Message) returns (msg': Message)
    requires !reader.failed && reader.wireType != END_GROUP
    modifies reader`rest, reader`failed
    ensures Read(ApplyMessage, msg, reader.number, reader.wireType, old(reader.rest), reader.failed, msg', reader.rest)
  {
    msg' := msg;
    match reader.number
    case 1 =>
      var v := reader.ReadBytes();
      msg' := msg.(msgId := v);
    case 2 =>
      var v := reader.ReadBytes();
      msg' := msg.(receiver := v);
    case 3 =>
      var v := reader.ReadInt64();
      msg' := msg.(timestamp := v);
    case 4 =>
      var v := reader.ReadBytes();
      msg' := msg.(encryptedMsg := v);
    case _ =>
      reader.SkipField();
  }

  method DeserializeMessage(reader: BinaryReader) returns (r: Option<Message>)
    requires !reader.failed
    modifies reader
    ensures r == Decode(ApplyMessage, EMPTY_MESSAGE, old(reader.rest))
  {
    var msg := EMPTY_MESSAGE;
    while true
      invariant !reader.failed
      invariant Decode(ApplyMessage, msg, reader.rest) == Decode(ApplyMessage, EMPTY_MESSAGE, old(reader.rest))
      decreases |reader.rest|
    {
      ghost var before := reader.rest;
      var more := reader.NextField();
      if reader.failed { return None; }
      if !more { break; }
      if reader.IsEndGroup() { break; }
      DecodeStep(ApplyMessage, msg, before);
      msg := ReadMessageField(reader, msg);
      if reader.failed { return None; }
    }
    return Some(msg);
  }

  method ReadMsgReceiptField(reader: BinaryReader, msg: MsgReceipt) returns (msg': MsgReceipt)
    requires !reader.failed && reader.wireType != END_GROUP
    modifies reader`rest, reader`failed
    ensures Read(ApplyMsgReceipt, msg, reader.number, reader.wireType, old(reader.rest), reader.failed, msg',
                 reader.rest)
  {
    msg' := msg;
    match reader.number
    case 1 =>
      var v := reader.ReadBytes();
      msg' := msg.(msgId := v);
    case 2 =>
      var v := reader.ReadInt32();
      msg' := msg.(state := v);
    case _ =>
      reader.SkipField();
  }

  method DeserializeMsgReceipt(reader: BinaryReader) returns (r: Option<MsgReceipt>)
    requires !reader.failed
    modifies reader
    ensures r == Decode(ApplyMsgReceipt, EMPTY_MSG_RECEIPT, old(reader.rest))
  {
    var msg := EMPTY_MSG_RECEIPT;
    while true
      invariant !reader.failed
      invariant Decode(ApplyMsgReceipt, msg, reader.rest)
          == Decode(ApplyMsgReceipt, EMPTY_MSG_RECEIPT, old(reader.rest))
      decreases |reader.rest|
    {
      ghost var before := reader.rest;
      var more := reader.NextField();
      if reader.failed { return None; }
      if !more { break; }
      if reader.IsEndGroup() { break; }
      DecodeStep(ApplyMsgReceipt, msg, before);
      msg := ReadMsgReceiptField(reader, msg);
      if reader.failed { return None; }
    }
    return Some(msg);
  }

  /** A nested message is read by its own loop, confined to its record. */
  method ReadMessagePackField(reader: BinaryReader, pack: MessagePack) returns (pack': MessagePack)
    requires !reader.failed && reader.wireType != END_GROUP
    modifies reader`rest, reader`failed
    ensures Read(ApplyMessagePack, pack, reader.number, reader.wireType, old(reader.rest), reader.failed, pack',
                 reader.rest)
  {
    pack' := pack;
    var f := reader.ReadRecord();
    if f.Some? && f.value.number == 1 {
      if !f.value.BytesField? {
        reader.failed := true;
        return;
      }
      var nested := new BinaryReader(f.value.payload);
      var value := DeserializeMessage(nested);
      match value
      case None => reader.failed := true;
      case Some(m) => pack' := MessagePack(pack.msgs + [m]);
    }
  }

  method DeserializeMessagePack(reader: BinaryReader) returns (r: Option<MessagePack>)
    requires !reader.failed
    modifies reader
    ensures r == DecodeMessagePack(old(reader.rest))
  {
    var msg := MessagePack([]);
    while true
      invariant !reader.failed
      invariant Decode(ApplyMessagePack, msg, reader.rest) == DecodeMessagePack(old(reader.rest))
      decreases |reader.rest|
    {
      ghost var before := reader.rest;
      var more := reader.NextField();
      if reader.failed { return None; }
      if !more { break; }
      if reader.IsEndGroup() { break; }
      DecodeStep(ApplyMessagePack, msg, before);
      msg := ReadMessagePackField(reader, msg);
      if reader.failed { return None; }
    }
    return Some(msg);
  }

  /** A nested message is read by its own loop, confined to its record. */
  method ReadReceiptPackField(reader: BinaryReader, pack: ReceiptPack) returns (pack': ReceiptPack)
    requires !reader.failed && reader.wireType != END_GROUP
    modifies reader`rest, reader`failed
    ensures Read(ApplyReceiptPack, pack, reader.number, reader.wireType, old(reader.rest), reader.failed, pack',
                 reader.rest)
  {
    pack' := pack;
    var f := reader.ReadRecord();
    if f.Some? && f.value.number == 1 {
      if !f.value.BytesField? {
        reader.failed := true;
        return;
      }
      var nested := new BinaryReader(f.value.payload);
      var value := DeserializeMsgReceipt(nested);
      match value
      case None => reader.failed := true;
      case Some(m) => pack' := ReceiptPack(pack.receipts + [m]);
    }
  }

  method DeserializeReceiptPack(reader: BinaryReader) returns (r: Option<ReceiptPack>)
    requires !reader.failed
    modifies reader
    ensures r == DecodeReceiptPack(old(reader.rest))
  {
    var msg := ReceiptPack([]);
    while true
      invariant !reader.failed
      invariant Decode(ApplyReceiptPack, msg, reader.rest) == DecodeReceiptPack(old(reader.rest))
      decreases |reader.rest|
    {
      ghost var before := reader.rest;
      var more := reader.NextField();
      if reader.failed { return None; }
      if !more { break; }
      if reader.IsEndGroup() { break; }
      DecodeStep(ApplyReceiptPack, msg, before);
      msg := ReadReceiptPackField(reader, msg);
      if reader.failed { return None; }
    }
    return Some(msg);
  }

  /** End to end: what the writers wrote, the readers read back. */
  method ThroughBuffers(m: SignedMsg, p: MessagePack, q: ReceiptPack)
    returns (m': Option<SignedMsg>, p': Option<MessagePack>, q': Option<ReceiptPack>)
    ensures m' == Some(m) && p' == Some(p) && q' == Some(q)
  {
    var w1 := new BinaryWriter();
    SerializeSignedMsg(m, w1);
    var r1 := new BinaryReader(w1.buffer);
    m' := DeserializeSignedMsg(r1);
    var w2 := new BinaryWriter();
    SerializeMessagePack(p, w2);
    var r2 := new BinaryReader(w2.buffer);
    p' := DeserializeMessagePack(r2);
    var w3 := new BinaryWriter();
    SerializeReceiptPack(q, w3);
    var r3 := new BinaryReader(w3.buffer);
    q' := DeserializeReceiptPack(r3);
    EmptyPrefix(EncodeSignedMsg(m));
    EmptyPrefix(EncodeMessagePack(p));
    EmptyPrefix(EncodeReceiptPack(q));
    SignedMsgRoundTrip(m);
    MessagePackRoundTrip(p);
    ReceiptPackRoundTrip(q);
  }

  lemma EmptyPrefix<T>(s: seq<T>)
    ensures [] + s == s
  {
  }
}
