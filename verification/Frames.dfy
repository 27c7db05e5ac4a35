/**
  What travels between clients and server, as values. The bytes behind them are the
  business of `Messages`.
*/
module Frames {

  /** A key fingerprint. `Nobody` is the empty string the server puts into its own frames;
      every real fingerprint is a non-empty digest. */
  datatype Name = Nobody | Fingerprint(digest: nat)

  datatype ErrorCode = InvalidMessage | VerifyError | ReceiverUnknown | MessageNotDelivered

  datatype ReceiptState = Lost | Received | Timeout | VerifyFailed | Reject

  datatype Receipt = Receipt(msgId: int, state: ReceiptState)

  /** One chat message of a pack; the text is encrypted and stays opaque. */
  datatype Entry = Entry(msgId: int, receiver: Name, text: nat)

  datatype Body =
    | MessagePack(entries: seq<Entry>)
    | ReceiptPack(receipts: seq<Receipt>)
    | Error(code: ErrorCode, about: int)
    | Other

  datatype Frame = Frame(id: int, sender: Name, receiver: Name, body: Body)
}
