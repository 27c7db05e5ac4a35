/**
  The chat messages on the wire: which fields each has, how a record is applied to it,
  and the laws: decoding undoes encoding, a concatenation decodes to the field-wise
  merge, unknown records are ignored.
*/
module Messages {
  import opened Basics
  import opened Wire

  datatype SignedMsg = SignedMsg(id: int32, typ: int32, receiver: Blob, sender: Blob, body: Blob, sign: Blob)

  datatype Message = Message(msgId: Blob, receiver: Blob, timestamp: int64, encryptedMsg: Blob)

  datatype MessagePack = MessagePack(msgs: seq<Message>)

  datatype MsgReceipt = MsgReceipt(msgId: Blob, state: int32)

  datatype ReceiptPack = ReceiptPack(receipts: seq<MsgReceipt>)

  const EMPTY_SIGNED_MSG := SignedMsg(0, 0, [], [], [], [])
  const EMPTY_MESSAGE := Message([], [], 0, [])
  const EMPTY_MSG_RECEIPT := MsgReceipt([], 0)

  // ---- fields: a default value is not written ----

  function IntField(number: nat, v: int64): (fs: seq<Field>)
    ensures number < 0x2000_0000 ==> AllWellFormed(fs)
  {
    if v == 0 then [] else [VarintField(number, ToBits(v))]
  }

  function BlobField(number: nat, b: Blob): (fs: seq<Field>)
    ensures number < 0x2000_0000 ==> AllWellFormed(fs)
  {
    if b == [] then [] else [BytesField(number, b)]
  }

  function SignedMsgHeader(m: SignedMsg): seq<Field> {
    IntField(1, m.id) + IntField(2, m.typ) + BlobField(3, m.receiver) + BlobField(4, m.sender)
  }

  function SignedMsgFields(m: SignedMsg): seq<Field> {
    SignedMsgHeader(m) + BlobField(5, m.body) + BlobField(6, m.sign)
  }

  function MessageFields(m: Message): seq<Field> {
    BlobField(1, m.msgId) + BlobField(2, m.receiver) + IntField(3, m.timestamp) + BlobField(4, m.encryptedMsg)
  }

  function MsgReceiptFields(m: MsgReceipt): seq<Field> {
    BlobField(1, m.msgId) + IntField(2, m.state)
  }

  function MessagePackFields(ms: seq<Message>): seq<Field> {
    if ms == [] then []
    else [BytesField(1, EncodeFields(MessageFields(ms[0])))] + MessagePackFields(ms[1..])
  }

  function ReceiptPackFields(rs: seq<MsgReceipt>): seq<Field> {
    if rs == [] then []
    else [BytesField(1, EncodeFields(MsgReceiptFields(rs[0])))] + ReceiptPackFields(rs[1..])
  }

  function EncodeMessage(m: Message): seq<byte> { EncodeFields(MessageFields(m)) }
  function EncodeMsgReceipt(m: MsgReceipt): seq<byte> { EncodeFields(MsgReceiptFields(m)) }
  function EncodeSignedMsg(m: SignedMsg): seq<byte> { EncodeFields(SignedMsgFields(m)) }
  function EncodeMessagePack(p: MessagePack): seq<byte> { EncodeFields(MessagePackFields(p.msgs)) }
  function EncodeReceiptPack(p: ReceiptPack): seq<byte> { EncodeFields(ReceiptPackFields(p.receipts)) }

  // ---- applying one record; a known field with the wrong wire type is refused ----

  function BlobOf(f: Field): Option<Blob> {
    if f.BytesField? && |f.payload| < TWO_32 then Some(f.payload) else None
  }

  function Int32Value(f: Field): Option<int32> {
    if f.VarintField? then Some(Int32Of(f.value)) else None
  }

  function Int64Value(f: Field): Option<int64> {
    if f.VarintField? then Some(Int64Of(f.value % TWO_64)) else None
  }

  function ApplySignedMsg(m: SignedMsg, f: Field): Option<SignedMsg> {
    match f.number
    case 1 => if Int32Value(f).Some? then Some(m.(id := Int32Value(f).value)) else None
    case 2 => if Int32Value(f).Some? then Some(m.(typ := Int32Value(f).value)) else None
    case 3 => if BlobOf(f).Some? then Some(m.(receiver := BlobOf(f).value)) else None
    case 4 => if BlobOf(f).Some? then Some(m.(sender := BlobOf(f).value)) else None
    case 5 => if BlobOf(f).Some? then Some(m.(body := BlobOf(f).value)) else None
    case 6 => if BlobOf(f).Some? then Some(m.(sign := BlobOf(f).value)) else None
    case _ => Some(m)
  }

  function ApplyMessage(m: Message, f: Field): Option<Message> {
    match f.number
    case 1 => if BlobOf(f).Some? then Some(m.(msgId := BlobOf(f).value)) else None
    case 2 => if BlobOf(f).Some? then Some(m.(receiver := BlobOf(f).value)) else None
    case 3 => if Int64Value(f).Some? then Some(m.(timestamp := Int64Value(f).value)) else None
    case 4 => if BlobOf(f).Some? then Some(m.(encryptedMsg := BlobOf(f).value)) else None
    case _ => Some(m)
  }

  function ApplyMsgReceipt(m: MsgReceipt, f: Field): Option<MsgReceipt> {
    match f.number
    case 1 => if BlobOf(f).Some? then Some(m.(msgId := BlobOf(f).value)) else None
    case 2 => if Int32Value(f).Some? then Some(m.(state := Int32Value(f).value)) else None
    case _ => Some(m)
  }

  function ApplyMessagePack(p: MessagePack, f: Field): Option<MessagePack> {
    if f.number != 1 then Some(p)
    else if !f.BytesField? then None
    else
      match Decode(ApplyMessage, EMPTY_MESSAGE, f.payload)
      case None => None
      case Some(m) => Some(MessagePack(p.msgs + [m]))
  }

  function ApplyReceiptPack(p: ReceiptPack, f: Field): Option<ReceiptPack> {
    if f.number != 1 then Some(p)
    else if !f.BytesField? then None
    else
      match Decode(ApplyMsgReceipt, EMPTY_MSG_RECEIPT, f.payload)
      case None => None
      case Some(r) => Some(ReceiptPack(p.receipts + [r]))
  }

  function DecodeMessage(b: seq<byte>): Option<Message> { Decode(ApplyMessage, EMPTY_MESSAGE, b) }
  function DecodeMsgReceipt(b: seq<byte>): Option<MsgReceipt> { Decode(ApplyMsgReceipt, EMPTY_MSG_RECEIPT, b) }
  function DecodeSignedMsg(b: seq<byte>): Option<SignedMsg> { Decode(ApplySignedMsg, EMPTY_SIGNED_MSG, b) }
  function DecodeMessagePack(b: seq<byte>): Option<MessagePack> { Decode(ApplyMessagePack, MessagePack([]), b) }
  function DecodeReceiptPack(b: seq<byte>): Option<ReceiptPack> { Decode(ApplyReceiptPack, ReceiptPack([]), b) }

  // ---- merging: a later non-default scalar wins, lists concatenate ----

  function MergeInt(a: int, b: int): int { if b != 0 then b else a }

  function MergeBlob(a: Blob, b: Blob): Blob { if b != [] then b else a }

  function MergeSignedMsg(a: SignedMsg, b: SignedMsg): SignedMsg {
    SignedMsg(MergeInt(a.id, b.id), MergeInt(a.typ, b.typ), MergeBlob(a.receiver, b.receiver),
              MergeBlob(a.sender, b.sender), MergeBlob(a.body, b.body), MergeBlob(a.sign, b.sign))
  }

  function MergeMessage(a: Message, b: Message): Message {
    Message(MergeBlob(a.msgId, b.msgId), MergeBlob(a.receiver, b.receiver), MergeInt(a.timestamp, b.timestamp),
            MergeBlob(a.encryptedMsg, b.encryptedMsg))
  }

  function MergeMsgReceipt(a: MsgReceipt, b: MsgReceipt): MsgReceipt {
    MsgReceipt(MergeBlob(a.msgId, b.msgId), MergeInt(a.state, b.state))
  }

  // ---- folding the fields of one message into another ----

  /** At most one record. */
  lemma ApplyAtMostOne<M>(apply: (M, Field) -> Option<M>, m: M, fs: seq<Field>)
    requires |fs| <= 1
    ensures ApplyAll(apply, m, fs) == if fs == [] then Some(m) else apply(m, fs[0])
  {
  }

  lemma ApplySignedMsgFields(a: SignedMsg, b: SignedMsg)
    ensures ApplyAll(ApplySignedMsg, a, SignedMsgFields(b)) == Some(MergeSignedMsg(a, b))
  {
    var f5, f6 := BlobField(5, b.body), BlobField(6, b.sign);
    var header := SignedMsgHeader(b);
    var m4 := MergeSignedMsg(a, b.(body := [], sign := []));
    ApplySignedMsgHeader(a, b);
    FoldMore(ApplySignedMsg, a, header, m4, f5);
    FoldMore(ApplySignedMsg, a, header + f5, m4.(body := MergeBlob(a.body, b.body)), f6);
  }

  lemma ApplySignedMsgHeader(a: SignedMsg, b: SignedMsg)
    ensures ApplyAll(ApplySignedMsg, a, SignedMsgHeader(b)) == Some(MergeSignedMsg(a, b.(body := [], sign := [])))
  {
    var f1, f2, f3, f4 := IntField(1, b.id), IntField(2, b.typ), BlobField(3, b.receiver), BlobField(4, b.sender);
    Int32RoundTrip(b.id);
    Int32RoundTrip(b.typ);
    var m1 := a.(id := MergeInt(a.id, b.id));
    var m2 := m1.(typ := MergeInt(a.typ, b.typ));
    var m3 := m2.(receiver := MergeBlob(a.receiver, b.receiver));
    ApplyAtMostOne(ApplySignedMsg, a, f1);
    FoldMore(ApplySignedMsg, a, f1, m1, f2);
    FoldMore(ApplySignedMsg, a, f1 + f2, m2, f3);
    FoldMore(ApplySignedMsg, a, f1 + f2 + f3, m3, f4);
  }

  /** If `fs` folds to `m'`, then `fs` followed by at most one more record folds on. */
  lemma FoldMore<M>(apply: (M, Field) -> Option<M>, m: M, fs: seq<Field>, m': M, gs: seq<Field>)
    requires ApplyAll(apply, m, fs) == Some(m') && |gs| <= 1
    ensures ApplyAll(apply, m, fs + gs) == if gs == [] then Some(m') else apply(m', gs[0])
  {
    ApplyAllConcat(apply, m, fs, gs);
    ApplyAtMostOne(apply, m', gs);
  }

  lemma ApplyMessageFields(a: Message, b: Message)
    ensures ApplyAll(ApplyMessage, a, MessageFields(b)) == Some(MergeMessage(a, b))
  {
    var f1, f2 := BlobField(1, b.msgId), BlobField(2, b.receiver);
    var f3, f4 := IntField(3, b.timestamp), BlobField(4, b.encryptedMsg);
    var m1 := a.(msgId := MergeBlob(a.msgId, b.msgId));
    var m2 := m1.(receiver := MergeBlob(a.receiver, b.receiver));
    var m3 := m2.(timestamp := MergeInt(a.timestamp, b.timestamp));
    ApplyAtMostOne(ApplyMessage, a, f1);
    FoldMore(ApplyMessage, a, f1, m1, f2);
    FoldMore(ApplyMessage, a, f1 + f2, m2, f3);
    FoldMore(ApplyMessage, a, f1 + f2 + f3, m3, f4);
  }

  lemma ApplyMsgReceiptFields(a: MsgReceipt, b: MsgReceipt)
    ensures ApplyAll(ApplyMsgReceipt, a, MsgReceiptFields(b)) == Some(MergeMsgReceipt(a, b))
  {
    var f1, f2 := BlobField(1, b.msgId), IntField(2, b.state);
    var m1 := a.(msgId := MergeBlob(a.msgId, b.msgId));
    Int32RoundTrip(b.state);
    ApplyAtMostOne(ApplyMsgReceipt, a, f1);
    FoldMore(ApplyMsgReceipt, a, f1, m1, f2);
  }

  // ---- sizes of nested messages: they always fit in a length prefix ----

  lemma {:induction false} VarintSize(n: nat, k: nat)
    requires k >= 1 && n < Pow128(k)
    ensures |EncodeVarint(n)| <= k
    decreases k
  {
    if n >= 128 {
      VarintSize(n / 128, k - 1);
    }
  }

  lemma FieldSize(f: Field)
    requires WellFormed(f) && (f.BytesField? ==> |f.payload| < TWO_32)
    ensures |EncodeField(f)| <= 20 + TWO_32
  {
    TenBytesSuffice();
    VarintSize(f.number * 8 + WireType(f), 10);
    match f {
      case VarintField(_, v) => VarintSize(v, 10);
      case BytesField(_, p) => VarintSize(|p|, 10);
      case _ =>
    }
  }

  lemma {:induction false} FieldsSize(fs: seq<Field>)
    requires AllWellFormed(fs)
    requires forall i | 0 <= i < |fs| :: fs[i].BytesField? ==> |fs[i].payload| < TWO_32
    ensures |EncodeFields(fs)| <= |fs| * (20 + TWO_32)
  {
    if fs != [] {
      FieldSize(fs[0]);
      FieldsSize(fs[1..]);
    }
  }

  lemma MessageSize(m: Message)
    ensures |EncodeMessage(m)| < TWO_64
  {
    FieldsSize(MessageFields(m));
  }

  lemma MsgReceiptSize(m: MsgReceipt)
    ensures |EncodeMsgReceipt(m)| < TWO_64
  {
    FieldsSize(MsgReceiptFields(m));
  }

  lemma {:induction false} MessagePackWellFormed(ms: seq<Message>)
    ensures AllWellFormed(MessagePackFields(ms))
  {
    if ms != [] {
      MessageSize(ms[0]);
      MessagePackWellFormed(ms[1..]);
    }
  }

  lemma {:induction false} ReceiptPackWellFormed(rs: seq<MsgReceipt>)
    ensures AllWellFormed(ReceiptPackFields(rs))
  {
    if rs != [] {
      MsgReceiptSize(rs[0]);
      ReceiptPackWellFormed(rs[1..]);
    }
  }

  // ---- the laws ----

  /** Decoding a written message in front of anything merges it in and goes on. */
  lemma DecodeSignedMsgThen(a: SignedMsg, b: SignedMsg, rest: seq<byte>)
    ensures Decode(ApplySignedMsg, a, EncodeSignedMsg(b) + rest) == Decode(ApplySignedMsg, MergeSignedMsg(a, b), rest)
  {
    ApplySignedMsgFields(a, b);
    DecodeEncoded(ApplySignedMsg, a, SignedMsgFields(b), rest);
  }

  lemma MergeIntoEmpty(m: SignedMsg)
    ensures MergeSignedMsg(EMPTY_SIGNED_MSG, m) == m
  {
  }

  lemma SignedMsgRoundTrip(m: SignedMsg)
    ensures DecodeSignedMsg(EncodeSignedMsg(m)) == Some(m)
  {
    DecodeSignedMsgThen(EMPTY_SIGNED_MSG, m, []);
    MergeIntoEmpty(m);
    assert EncodeSignedMsg(m) + [] == EncodeSignedMsg(m);
  }

  /** Two encodings one after the other decode to their field-wise merge. */
  lemma SignedMsgMergeLaw(a: SignedMsg, b: SignedMsg)
    ensures DecodeSignedMsg(EncodeSignedMsg(a) + EncodeSignedMsg(b)) == Some(MergeSignedMsg(a, b))
  {
    DecodeSignedMsgThen(EMPTY_SIGNED_MSG, a, EncodeSignedMsg(b));
    DecodeSignedMsgThen(a, b, []);
    assert EncodeSignedMsg(b) + [] == EncodeSignedMsg(b);
  }

  lemma DecodeMessageThen(a: Message, b: Message, rest: seq<byte>)
    ensures Decode(ApplyMessage, a, EncodeMessage(b) + rest) == Decode(ApplyMessage, MergeMessage(a, b), rest)
  {
    ApplyMessageFields(a, b);
    DecodeEncoded(ApplyMessage, a, MessageFields(b), rest);
  }

  lemma DecodeMsgReceiptThen(a: MsgReceipt, b: MsgReceipt, rest: seq<byte>)
    ensures Decode(ApplyMsgReceipt, a, EncodeMsgReceipt(b) + rest)
        == Decode(ApplyMsgReceipt, MergeMsgReceipt(a, b), rest)
  {
    ApplyMsgReceiptFields(a, b);
    DecodeEncoded(ApplyMsgReceipt, a, MsgReceiptFields(b), rest);
  }

  lemma MessageRoundTrip(m: Message)
    ensures DecodeMessage(EncodeMessage(m)) == Some(m)
  {
    DecodeMessageThen(EMPTY_MESSAGE, m, []);
    assert EncodeMessage(m) + [] == EncodeMessage(m);
  }

  lemma MsgReceiptRoundTrip(m: MsgReceipt)
    ensures DecodeMsgReceipt(EncodeMsgReceipt(m)) == Some(m)
  {
    DecodeMsgReceiptThen(EMPTY_MSG_RECEIPT, m, []);
    assert EncodeMsgReceipt(m) + [] == EncodeMsgReceipt(m);
  }

  lemma MessageMergeLaw(a: Message, b: Message)
    ensures DecodeMessage(EncodeMessage(a) + EncodeMessage(b)) == Some(MergeMessage(a, b))
  {
    DecodeMessageThen(EMPTY_MESSAGE, a, EncodeMessage(b));
    DecodeMessageThen(a, b, []);
    assert EncodeMessage(b) + [] == EncodeMessage(b);
  }

  lemma MsgReceiptMergeLaw(a: MsgReceipt, b: MsgReceipt)
    ensures DecodeMsgReceipt(EncodeMsgReceipt(a) + EncodeMsgReceipt(b)) == Some(MergeMsgReceipt(a, b))
  {
    DecodeMsgReceiptThen(EMPTY_MSG_RECEIPT, a, EncodeMsgReceipt(b));
    DecodeMsgReceiptThen(a, b, []);
    assert EncodeMsgReceipt(b) + [] == EncodeMsgReceipt(b);
  }

  lemma TakeOver<T>(a: seq<T>, b: seq<T>)
    requires b != []
    ensures a + [b[0]] + b[1..] == a + b
  {
  }

  lemma MessagePackOne(p: MessagePack, m: Message)
    ensures ApplyMessagePack(p, BytesField(1, EncodeMessage(m))) == Some(MessagePack(p.msgs + [m]))
  {
    MessageRoundTrip(m);
  }

  lemma {:induction false} ApplyMessagePackFields(p: MessagePack, ms: seq<Message>)
    ensures ApplyAll(ApplyMessagePack, p, MessagePackFields(ms)) == Some(MessagePack(p.msgs + ms))
    decreases |ms|
  {
    if ms == [] {
      assert p.msgs + ms == p.msgs;
    } else {
      var q, first := MessagePack(p.msgs + [ms[0]]), BytesField(1, EncodeFields(MessageFields(ms[0])));
      MessagePackOne(p, ms[0]);
      ApplyAllCons(ApplyMessagePack, p, first, MessagePackFields(ms[1..]));
      ApplyMessagePackFields(q, ms[1..]);
      TakeOver(p.msgs, ms);
    }
  }

  lemma ReceiptPackOne(p: ReceiptPack, m: MsgReceipt)
    ensures ApplyReceiptPack(p, BytesField(1, EncodeFields(MsgReceiptFields(m)))) == Some(ReceiptPack(p.receipts + [m]))
  {
    MsgReceiptRoundTrip(m);
  }

  lemma {:induction false} ApplyReceiptPackFields(p: ReceiptPack, rs: seq<MsgReceipt>)
    ensures ApplyAll(ApplyReceiptPack, p, ReceiptPackFields(rs)) == Some(ReceiptPack(p.receipts + rs))
    decreases |rs|
  {
    if rs == [] {
      assert p.receipts + rs == p.receipts;
    } else {
      var q, first := ReceiptPack(p.receipts + [rs[0]]), BytesField(1, EncodeFields(MsgReceiptFields(rs[0])));
      ReceiptPackOne(p, rs[0]);
      ApplyAllCons(ApplyReceiptPack, p, first, ReceiptPackFields(rs[1..]));
      ApplyReceiptPackFields(q, rs[1..]);
      TakeOver(p.receipts, rs);
    }
  }

  lemma DecodeMessagePackThen(p: MessagePack, q: MessagePack, rest: seq<byte>)
    ensures Decode(ApplyMessagePack, p, EncodeMessagePack(q) + rest) ==
            Decode(ApplyMessagePack, MessagePack(p.msgs + q.msgs), rest)
  {
    MessagePackWellFormed(q.msgs);
    ApplyMessagePackFields(p, q.msgs);
    DecodeEncoded(ApplyMessagePack, p, MessagePackFields(q.msgs), rest);
  }

  lemma DecodeReceiptPackThen(p: ReceiptPack, q: ReceiptPack, rest: seq<byte>)
    ensures Decode(ApplyReceiptPack, p, EncodeReceiptPack(q) + rest) ==
            Decode(ApplyReceiptPack, ReceiptPack(p.receipts + q.receipts), rest)
  {
    ReceiptPackWellFormed(q.receipts);
    ApplyReceiptPackFields(p, q.receipts);
    DecodeEncoded(ApplyReceiptPack, p, ReceiptPackFields(q.receipts), rest);
  }

  lemma EmptyPackBefore(p: MessagePack)
    ensures MessagePack(MessagePack([]).msgs + p.msgs) == p
  {
    assert [] + p.msgs == p.msgs;
  }

  lemma EmptyReceiptsBefore(p: ReceiptPack)
    ensures ReceiptPack(ReceiptPack([]).receipts + p.receipts) == p
  {
    assert [] + p.receipts == p.receipts;
  }

  lemma DecodeMessagePackLast(p: MessagePack, q: MessagePack)
    ensures Decode(ApplyMessagePack, p, EncodeMessagePack(q)) == Some(MessagePack(p.msgs + q.msgs))
  {
    DecodeMessagePackThen(p, q, []);
    assert EncodeMessagePack(q) + [] == EncodeMessagePack(q);
  }

  lemma DecodeReceiptPackLast(p: ReceiptPack, q: ReceiptPack)
    ensures Decode(ApplyReceiptPack, p, EncodeReceiptPack(q)) == Some(ReceiptPack(p.receipts + q.receipts))
  {
    DecodeReceiptPackThen(p, q, []);
    assert EncodeReceiptPack(q) + [] == EncodeReceiptPack(q);
  }

  /** Two packs one after the other decode to the concatenation of their entries. */
  lemma MessagePackMergeLaw(p: MessagePack, q: MessagePack)
    ensures DecodeMessagePack(EncodeMessagePack(p) + EncodeMessagePack(q)) == Some(MessagePack(p.msgs + q.msgs))
  {
    EmptyPackBefore(p);
    DecodeMessagePackThen(MessagePack([]), p, EncodeMessagePack(q));
    DecodeMessagePackLast(p, q);
  }

  lemma ReceiptPackMergeLaw(p: ReceiptPack, q: ReceiptPack)
    ensures DecodeReceiptPack(EncodeReceiptPack(p) + EncodeReceiptPack(q)) == Some(ReceiptPack(p.receipts + q.receipts))
  {
    EmptyReceiptsBefore(p);
    DecodeReceiptPackThen(ReceiptPack([]), p, EncodeReceiptPack(q));
    DecodeReceiptPackLast(p, q);
  }

  /** Any number of nested messages comes back. */
  lemma MessagePackRoundTrip(p: MessagePack)
    ensures DecodeMessagePack(EncodeMessagePack(p)) == Some(p)
  {
    EmptyPackBefore(p);
    DecodeMessagePackLast(MessagePack([]), p);
  }

  lemma ReceiptPackRoundTrip(p: ReceiptPack)
    ensures DecodeReceiptPack(EncodeReceiptPack(p)) == Some(p)
  {
    EmptyReceiptsBefore(p);
    DecodeReceiptPackLast(ReceiptPack([]), p);
  }

  /** A record with a field number the message does not have may stand anywhere between the
      records of a written message, in front of any continuation. */
  lemma SignedMsgIgnoresUnknown(m: SignedMsg, i: nat, unknown: Field, rest: seq<byte>)
    requires i <= |SignedMsgFields(m)| && WellFormed(unknown) && !(1 <= unknown.number <= 6)
    ensures DecodeSignedMsg(EncodeWith(SignedMsgFields(m), i, unknown) + rest)
        == DecodeSignedMsg(EncodeSignedMsg(m) + rest)
  {
    UnknownAnywhere(ApplySignedMsg, EMPTY_SIGNED_MSG, SignedMsgFields(m), i, unknown, rest);
  }

  lemma MessagePackIgnoresUnknown(p: MessagePack, i: nat, unknown: Field, rest: seq<byte>)
    requires i <= |MessagePackFields(p.msgs)| && WellFormed(unknown) && unknown.number != 1
    ensures DecodeMessagePack(EncodeWith(MessagePackFields(p.msgs), i, unknown) + rest)
        == DecodeMessagePack(EncodeMessagePack(p) + rest)
  {
    MessagePackWellFormed(p.msgs);
    UnknownAnywhere(ApplyMessagePack, MessagePack([]), MessagePackFields(p.msgs), i, unknown, rest);
  }

  lemma ReceiptPackIgnoresUnknown(p: ReceiptPack, i: nat, unknown: Field, rest: seq<byte>)
    requires i <= |ReceiptPackFields(p.receipts)| && WellFormed(unknown) && unknown.number != 1
    ensures DecodeReceiptPack(EncodeWith(ReceiptPackFields(p.receipts), i, unknown) + rest)
        == DecodeReceiptPack(EncodeReceiptPack(p) + rest)
  {
    ReceiptPackWellFormed(p.receipts);
    UnknownAnywhere(ApplyReceiptPack, ReceiptPack([]), ReceiptPackFields(p.receipts), i, unknown, rest);
  }

  lemma MessageIgnoresUnknown(m: Message, i: nat, unknown: Field, rest: seq<byte>)
    requires i <= |MessageFields(m)| && WellFormed(unknown) && !(1 <= unknown.number <= 4)
    ensures DecodeMessage(EncodeWith(MessageFields(m), i, unknown) + rest) == DecodeMessage(EncodeMessage(m) + rest)
  {
    UnknownAnywhere(ApplyMessage, EMPTY_MESSAGE, MessageFields(m), i, unknown, rest);
  }

  lemma MsgReceiptIgnoresUnknown(m: MsgReceipt, i: nat, unknown: Field, rest: seq<byte>)
    requires i <= |MsgReceiptFields(m)| && WellFormed(unknown) && !(1 <= unknown.number <= 2)
    ensures DecodeMsgReceipt(EncodeWith(MsgReceiptFields(m), i, unknown) + rest)
         == DecodeMsgReceipt(EncodeMsgReceipt(m) + rest)
  {
    UnknownAnywhere(ApplyMsgReceipt, EMPTY_MSG_RECEIPT, MsgReceiptFields(m), i, unknown, rest);
  }

  // ---- unknown records inside nested messages ----

  /** A pack whose entries have these bytes. */
  function NestedFields(payloads: seq<seq<byte>>): seq<Field> {
    if payloads == [] then [] else [BytesField(1, payloads[0])] + NestedFields(payloads[1..])
  }

  lemma {:induction false} NestedWellFormed(payloads: seq<seq<byte>>)
    requires forall j | 0 <= j < |payloads| :: |payloads[j]| < TWO_64
    ensures AllWellFormed(NestedFields(payloads))
  {
    if payloads != [] {
      NestedWellFormed(payloads[1..]);
    }
  }

  lemma {:induction false} NestedMessages(p: MessagePack, payloads: seq<seq<byte>>, ms: seq<Message>)
    requires |payloads| == |ms| && forall j | 0 <= j < |ms| :: DecodeMessage(payloads[j]) == Some(ms[j])
    ensures ApplyAll(ApplyMessagePack, p, NestedFields(payloads)) == Some(MessagePack(p.msgs + ms))
    decreases |ms|
  {
    if ms == [] {
      assert p.msgs + ms == p.msgs;
    } else {
      ApplyAllCons(ApplyMessagePack, p, BytesField(1, payloads[0]), NestedFields(payloads[1..]));
      NestedMessages(MessagePack(p.msgs + [ms[0]]), payloads[1..], ms[1..]);
      TakeOver(p.msgs, ms);
    }
  }

  lemma {:induction false} NestedReceipts(p: ReceiptPack, payloads: seq<seq<byte>>, rs: seq<MsgReceipt>)
    requires |payloads| == |rs| && forall j | 0 <= j < |rs| :: DecodeMsgReceipt(payloads[j]) == Some(rs[j])
    ensures ApplyAll(ApplyReceiptPack, p, NestedFields(payloads)) == Some(ReceiptPack(p.receipts + rs))
    decreases |rs|
  {
    if rs == [] {
      assert p.receipts + rs == p.receipts;
    } else {
      ApplyAllCons(ApplyReceiptPack, p, BytesField(1, payloads[0]), NestedFields(payloads[1..]));
      NestedReceipts(ReceiptPack(p.receipts + [rs[0]]), payloads[1..], rs[1..]);
      TakeOver(p.receipts, rs);
    }
  }

  /** A nested message as somebody else may write it: an unknown record anywhere in it. */
  ghost predicate MessageWithUnknown(payload: seq<byte>, m: Message) {
    && |payload| < TWO_64
    && exists i: nat, unknown: Field ::
      && i <= |MessageFields(m)| && WellFormed(unknown) && !(1 <= unknown.number <= 4)
      && payload == EncodeWith(MessageFields(m), i, unknown)
  }

  ghost predicate ReceiptWithUnknown(payload: seq<byte>, m: MsgReceipt) {
    && |payload| < TWO_64
    && exists i: nat, unknown: Field ::
      && i <= |MsgReceiptFields(m)| && WellFormed(unknown) && !(1 <= unknown.number <= 2)
      && payload == EncodeWith(MsgReceiptFields(m), i, unknown)
  }

  lemma MessageDespiteUnknown(payload: seq<byte>, m: Message)
    requires MessageWithUnknown(payload, m)
    ensures DecodeMessage(payload) == Some(m)
  {
    var i: nat, unknown: Field :|
      i <= |MessageFields(m)| && WellFormed(unknown) && !(1 <= unknown.number <= 4)
      && payload == EncodeWith(MessageFields(m), i, unknown);
    MessageIgnoresUnknown(m, i, unknown, []);
    MessageRoundTrip(m);
    assert payload + [] == payload && EncodeMessage(m) + [] == EncodeMessage(m);
  }

  lemma ReceiptDespiteUnknown(payload: seq<byte>, m: MsgReceipt)
    requires ReceiptWithUnknown(payload, m)
    ensures DecodeMsgReceipt(payload) == Some(m)
  {
    var i: nat, unknown: Field :|
      i <= |MsgReceiptFields(m)| && WellFormed(unknown) && !(1 <= unknown.number <= 2)
      && payload == EncodeWith(MsgReceiptFields(m), i, unknown);
    MsgReceiptIgnoresUnknown(m, i, unknown, []);
    MsgReceiptRoundTrip(m);
    assert payload + [] == payload && EncodeMsgReceipt(m) + [] == EncodeMsgReceipt(m);
  }

  /** Every entry of a pack may be plainly written or carry an unknown record of its own. */
  lemma MessagePackIgnoresNestedUnknown(payloads: seq<seq<byte>>, ms: seq<Message>)
    requires |payloads| == |ms|
    requires forall j | 0 <= j < |ms| ::
      payloads[j] == EncodeMessage(ms[j]) || MessageWithUnknown(payloads[j], ms[j])
    ensures DecodeMessagePack(EncodeFields(NestedFields(payloads))) == Some(MessagePack(ms))
  {
    forall j | 0 <= j < |ms| ensures DecodeMessage(payloads[j]) == Some(ms[j]) && |payloads[j]| < TWO_64 {
      if payloads[j] == EncodeMessage(ms[j]) {
        MessageSize(ms[j]);
        MessageRoundTrip(ms[j]);
      } else {
        MessageDespiteUnknown(payloads[j], ms[j]);
      }
    }
    NestedWellFormed(payloads);
    NestedMessages(MessagePack([]), payloads, ms);
    DecodeEncoded(ApplyMessagePack, MessagePack([]), NestedFields(payloads), []);
    assert EncodeFields(NestedFields(payloads)) + [] == EncodeFields(NestedFields(payloads));
    assert [] + ms == ms;
  }

  lemma ReceiptPackIgnoresNestedUnknown(payloads: seq<seq<byte>>, rs: seq<MsgReceipt>)
    requires |payloads| == |rs|
    requires forall j | 0 <= j < |rs| ::
      payloads[j] == EncodeMsgReceipt(rs[j]) || ReceiptWithUnknown(payloads[j], rs[j])
    ensures DecodeReceiptPack(EncodeFields(NestedFields(payloads))) == Some(ReceiptPack(rs))
  {
    forall j | 0 <= j < |rs| ensures DecodeMsgReceipt(payloads[j]) == Some(rs[j]) && |payloads[j]| < TWO_64 {
      if payloads[j] == EncodeMsgReceipt(rs[j]) {
        MsgReceiptSize(rs[j]);
        MsgReceiptRoundTrip(rs[j]);
      } else {
        ReceiptDespiteUnknown(payloads[j], rs[j]);
      }
    }
    NestedWellFormed(payloads);
    NestedReceipts(ReceiptPack([]), payloads, rs);
    DecodeEncoded(ApplyReceiptPack, ReceiptPack([]), NestedFields(payloads), []);
    assert EncodeFields(NestedFields(payloads)) + [] == EncodeFields(NestedFields(payloads));
    assert [] + rs == rs;
  }
}
