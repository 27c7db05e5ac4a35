/**
  The chat client as a transition system. The code between two awaits is one step; what
  waits for an await is a task. Key reading, encryption, signing and the application's
  answer to a contact request decide how a task is resumed.
*/
module ChatClient {
  import opened Basics
  import opened Frames

  datatype User = User(fp: Name, key: nat)

  /** A member of a session: the client's own user object, or a contact's. */
  datatype Member = Self | Peer(user: User)

  datatype ChatMessage = ChatMessage(msgId: int, sender: Name, receiver: Name, text: nat)

  datatype ChatSession = ChatSession(users: seq<Member>, messages: seq<ChatMessage>)

  /** A contact request's message has a listener that opens a session. */
  datatype Kind = Chat | ContactRequest(user: User)

  datatype Archived = Archived(msgId: int, receiver: Name, text: nat, kind: Kind, state: Option<ReceiptState>)

  datatype Task =
    | RequestEncrypted(user: User)                              // contactRequest, before its send
    | SendTimer(recipients: seq<Name>, text: nat)               // Session.send, before the timer
    | Encrypting(index: nat)                                    // send, before the pack is made
    | Signing(frame: Frame)                                     // sendPack, before the socket write
    | Deciding(sender: Name, messages: seq<ChatMessage>)        // an unknown sender's first pack

  datatype Client = Client(
    me: Name,
    contacts: map<Name, User>,
    sessions: seq<ChatSession>,
    archive: seq<Option<Archived>>,
    packs: nat,
    asksApplication: bool,
    tasks: seq<Task>,
    handled: seq<ChatMessage>)

  /** Both archives start with an unused first slot. `handled` is history: the messages
      handled as coming from known senders. */
  function Initial(me: Name, asksApplication: bool): Client {
    Client(me, map[], [], [None], 1, asksApplication, [], [])
  }

  // ---- sending ----

  function SendPack(c: Client, body: Body, receiver: Name): Client {
    c.(packs := c.packs + 1, tasks := c.tasks + [Signing(Frame(c.packs, c.me, receiver, body))])
  }

  /** The synchronous part of `send`, for a fresh message: it is archived under its id even
      when the receiver turns out not to be a contact, in which case nothing follows. */
  function StartSend(c: Client, receiver: Name, text: nat, kind: Kind): Client {
    var id := |c.archive|;
    c.(archive := c.archive + [Some(Archived(id, receiver, text, kind, None))],
       tasks := if receiver in c.contacts then c.tasks + [Encrypting(id)] else c.tasks)
  }

  function StartSends(c: Client, recipients: seq<Name>, text: nat): Client
    decreases |recipients|
  {
    if recipients == [] then c else StartSends(StartSend(c, recipients[0], text, Chat), recipients[1..], text)
  }

  /** The fingerprints of the members other than the own user object. */
  function Others(users: seq<Member>): seq<Name> {
    if users == [] then []
    else if users[0].Peer? then [users[0].user.fp] + Others(users[1..])
    else Others(users[1..])
  }

  function PushMessage(sessions: seq<ChatSession>, k: nat, m: ChatMessage): (r: seq<ChatSession>)
    requires k < |sessions|
    ensures |r| == |sessions|
    ensures forall j | 0 <= j < |sessions| ::
      r[j].users == sessions[j].users
      && r[j].messages == if j == k then sessions[j].messages + [m] else sessions[j].messages
  {
    sessions[k := sessions[k].(messages := sessions[k].messages + [m])]
  }

  /** `Session.send`: the text is shown at once and sent to the others when a timer fires. */
  function SendText(c: Client, k: nat, text: nat): Client {
    if k >= |c.sessions| then c
    else
      c.(sessions := PushMessage(c.sessions, k, ChatMessage(-1, c.me, Nobody, text)),
         tasks := c.tasks + [SendTimer(Others(c.sessions[k].users), text)])
  }

  function RequestContact(c: Client, user: User): Client {
    c.(contacts := c.contacts[user.fp := user], tasks := c.tasks + [RequestEncrypted(user)])
  }

  // ---- receiving ----

  function OpenSession(c: Client, user: User): Client {
    c.(sessions := c.sessions + [ChatSession([Self, Peer(user)], [])])
  }

  function FingerprintOf(m: Member, me: Name): Name {
    match m
    case Self => me
    case Peer(u) => u.fp
  }

  predicate HasMember(s: ChatSession, fp: Name, me: Name) {
    exists i :: 0 <= i < |s.users| && FingerprintOf(s.users[i], me) == fp
  }

  /** The first session with a member of that fingerprint. */
  function FirstWith(sessions: seq<ChatSession>, fp: Name, me: Name): (r: Option<nat>)
    ensures r.Some? ==> r.value < |sessions| && HasMember(sessions[r.value], fp, me)
                        && forall j | 0 <= j < r.value :: !HasMember(sessions[j], fp, me)
    ensures r.None? ==> forall j | 0 <= j < |sessions| :: !HasMember(sessions[j], fp, me)
  {
    if sessions == [] then None
    else if HasMember(sessions[0], fp, me) then Some(0)
    else match FirstWith(sessions[1..], fp, me) case None => None case Some(k) => Some(k + 1)
  }

  /** One message of a known sender goes into the first session with that sender, which is
      opened when there is none. */
  function Deliver(c: Client, usr: User, m: ChatMessage): Client {
    var c' := if FirstWith(c.sessions, m.sender, c.me).None? then OpenSession(c, usr) else c;
    var k := match FirstWith(c.sessions, m.sender, c.me) case Some(k) => k case None => |c.sessions|;
    c'.(sessions := PushMessage(c'.sessions, k, m), handled := c.handled + [m])
  }

  function DeliverAll(c: Client, usr: User, ms: seq<ChatMessage>): Client
    decreases |ms|
  {
    if ms == [] then c else DeliverAll(Deliver(c, usr, ms[0]), usr, ms[1..])
  }

  function Incoming(sender: Name, entries: seq<Entry>): (r: seq<ChatMessage>)
    ensures |r| == |entries|
    ensures forall i | 0 <= i < |r| :: r[i] == ChatMessage(entries[i].msgId, sender, entries[i].receiver,
                                                           entries[i].text)
  {
    seq(|entries|, i requires 0 <= i < |entries| =>
      ChatMessage(entries[i].msgId, sender, entries[i].receiver, entries[i].text))
  }

  function GenReceipt(ms: seq<ChatMessage>, state: ReceiptState): (r: Body)
    ensures r.ReceiptPack? && |r.receipts| == |ms|
    ensures forall i | 0 <= i < |ms| :: r.receipts[i] == Receipt(ms[i].msgId, state)
  {
    ReceiptPack(seq(|ms|, i requires 0 <= i < |ms| => Receipt(ms[i].msgId, state)))
  }

  /** A pack of a known sender is receipted and delivered; one of an unknown sender is taken
      for a contact request, unless it is empty. */
  function HandleMessages(c: Client, sender: Name, entries: seq<Entry>): Client {
    var ms := Incoming(sender, entries);
    if sender !in c.contacts then
      if ms == [] then c else c.(tasks := c.tasks + [Deciding(sender, ms)])
    else
      DeliverAll(SendPack(c, GenReceipt(ms, Received), sender), c.contacts[sender], ms)
  }

  /** A receipt sets the state of the archived message with its id, whoever sent it; a
      received contact request opens a session. */
  function ApplyReceipt(c: Client, r: Receipt): Client {
    if 0 <= r.msgId < |c.archive| && c.archive[r.msgId].Some? then
      var a := c.archive[r.msgId].value;
      var c' := c.(archive := c.archive[r.msgId := Some(a.(state := Some(r.state)))]);
      if a.kind.ContactRequest? && r.state == Received then OpenSession(c', a.kind.user) else c'
    else c
  }

  function ApplyReceipts(c: Client, rs: seq<Receipt>): Client
    decreases |rs|
  {
    if rs == [] then c else ApplyReceipts(ApplyReceipt(c, rs[0]), rs[1..])
  }

  function Handle(c: Client, frame: Frame): Client {
    match frame.body
    case MessagePack(entries) => HandleMessages(c, frame.sender, entries)
    case ReceiptPack(receipts) => ApplyReceipts(c, receipts)
    case Error(_, _) => c
    case Other => c
  }

  // ---- resuming tasks ----

  /** How an awaited operation ends: it throws, it succeeds, or, for a contact request, the
      sender's key and the application's answer are known. */
  datatype Resume = Throw | Continue | Decided(accept: bool, user: User)

  datatype Effect = Effect(client: Client, sent: Option<Frame>)

  function Drop(c: Client, k: nat): Client
    requires k < |c.tasks|
  {
    c.(tasks := Cut(c.tasks, k))
  }

  /** The end of a contact request. The key must be the sender's own. */
  function Decide(c: Client, sender: Name, ms: seq<ChatMessage>, accept: bool, user: User): Client {
    if user.fp != sender then c
    else if !c.asksApplication then SendPack(c, GenReceipt(ms, Lost), sender)
    else if !accept then SendPack(c, GenReceipt(ms, Reject), sender)
    else OpenSession(SendPack(c.(contacts := c.contacts[user.fp := user]), GenReceipt(ms, Received), sender), user)
  }

  function ResumeTask(c: Client, k: nat, how: Resume): Effect {
    if k >= |c.tasks| then Effect(c, None)
    else
      var c' := Drop(c, k);
      match c.tasks[k]
      case RequestEncrypted(user) =>
        Effect(if how.Continue? then StartSend(c', user.fp, user.key, ContactRequest(user)) else c', None)
      case SendTimer(recipients, text) =>
        Effect(StartSends(c', recipients, text), None)
      case Encrypting(n) =>
        (if how.Continue? && n < |c.archive| && c.archive[n].Some? then
           var m := c.archive[n].value;
           Effect(SendPack(c', MessagePack([Entry(m.msgId, m.receiver, m.text)]), m.receiver), None)
         else Effect(c', None))
      case Signing(frame) =>
        Effect(c', if how.Continue? then Some(frame) else None)
      case Deciding(sender, ms) =>
        Effect(if how.Decided? then Decide(c', sender, ms, how.accept, how.user) else c', None)
  }

  datatype Action =
    | AskContact(user: User)
    | SayIn(session: nat, text: nat)
    | ResumeAt(k: nat, how: Resume)
    | Arrive(frame: Frame)

  function Act(c: Client, a: Action): Effect {
    match a
    case AskContact(user) => Effect(RequestContact(c, user), None)
    case SayIn(k, text) => Effect(SendText(c, k, text), None)
    case ResumeAt(k, how) => ResumeTask(c, k, how)
    case Arrive(frame) => Effect(Handle(c, frame), None)
  }

  function Run(me: Name, asks: bool, actions: seq<Action>): Client {
    if actions == [] then Initial(me, asks)
    else Act(Run(me, asks, actions[..|actions| - 1]), actions[|actions| - 1]).client
  }
}
