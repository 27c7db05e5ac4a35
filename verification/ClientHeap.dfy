/**
  The client's objects: contacts, sessions that are pushed to, and an archive of shared
  message objects whose state receipts overwrite. Every method is the code between two
  awaits and is proved to take the step `ChatClient` gives it; what it leaves to be awaited
  is its result.
*/
module ClientHeap {
  import opened Basics
  import opened Frames
  import S = ChatClient
  import C = ClientLaws

  class User {
    const fingerprint: Name
    const key: nat

    constructor (fingerprint: Name, key: nat)
      ensures this.fingerprint == fingerprint && this.key == key
    {
      this.fingerprint := fingerprint;
      this.key := key;
    }

    ghost function View(): S.User {
      S.User(fingerprint, key)
    }
  }

  /** `request` is the user a contact request's state listener opens a session with. */
  class Message {
    const sender: Name
    const receiver: Name
    const body: nat
    const request: User?
    var msgId: int
    var state: Option<ReceiptState>

    constructor (sender: Name, receiver: Name, body: nat, id: int, request: User?)
      ensures this.sender == sender && this.receiver == receiver && this.body == body && this.request == request
      ensures msgId == id && state == None
    {
      this.sender := sender;
      this.receiver := receiver;
      this.body := body;
      this.request := request;
      msgId := id;
      state := None;
    }

    ghost function Kind(): S.Kind {
      if request == null then S.Chat else S.ContactRequest(request.View())
    }

    ghost function Shown(): S.ChatMessage
      reads this
    {
      S.ChatMessage(msgId, sender, receiver, body)
    }

    ghost function Archived(): S.Archived
      reads this
    {
      S.Archived(msgId, receiver, body, Kind(), state)
    }
  }

  class Session {
    const users: seq<User>
    var messages: seq<Message>

    constructor (users: seq<User>)
      ensures this.users == users && messages == []
    {
      this.users := users;
      messages := [];
    }

    predicate HasUser(fp: Name) {
      exists i :: 0 <= i < |users| && users[i].fingerprint == fp
    }
  }

  // ---- what the objects show ----

  /** Members are told apart by identity: the client's own user object is `Self`. */
  ghost predicate UsersShow(me: User, users: seq<User>, vs: seq<S.Member>) {
    |users| == |vs| && forall i | 0 <= i < |users| ::
        vs[i] == if users[i] == me then S.Self else S.Peer(users[i].View())
  }

  ghost predicate MessagesShow(ms: seq<Message>, vs: seq<S.ChatMessage>)
    reads ms
  {
    |ms| == |vs| && forall i | 0 <= i < |ms| :: ms[i].Shown() == vs[i]
  }

  ghost predicate SessionShows(me: User, s: Session, held: set<Message>, v: S.ChatSession)
    reads s, held
  {
    && UsersShow(me, s.users, v.users)
    && (forall m | m in s.messages :: m in held)
    && MessagesShow(s.messages, v.messages)
  }

  ghost predicate SessionsShow(me: User, sessions: seq<Session>, held: set<Message>, vs: seq<S.ChatSession>)
    reads sessions, held
  {
    && |sessions| == |vs|
    && (forall i, j | 0 <= i < j < |sessions| :: sessions[i] != sessions[j])
    && (forall i | 0 <= i < |sessions| :: SessionShows(me, sessions[i], held, vs[i]))
  }

  /** Every archived message is archived once. */
  ghost predicate ArchiveShows(archive: seq<Message?>, vs: seq<Option<S.Archived>>)
    reads archive
  {
    ValuesShow(archive, vs) && forall i, j | 0 <= i < j < |archive| :: archive[i] != null ==> archive[i] != archive[j]
  }

  ghost predicate ValuesShow(archive: seq<Message?>, vs: seq<Option<S.Archived>>)
    reads archive
  {
    && |archive| == |vs|
    && (forall i | 0 <= i < |archive| :: vs[i] == if archive[i] == null then None else Some(archive[i].Archived()))
  }

  ghost predicate ContactsShow(contacts: map<Name, User>, vs: map<Name, S.User>) {
    && (forall fp :: fp in contacts <==> fp in vs)
    && (forall fp | fp in contacts :: vs[fp] == contacts[fp].View())
  }

  // ---- steps on what is shown ----

  lemma OpenShows(me: User, sessions: seq<Session>, held: set<Message>, c: S.Client, s: Session, usr: User)
    requires SessionsShow(me, sessions, held, c.sessions) && s !in sessions
    requires s.users == [me, usr] && s.messages == [] && usr != me
    ensures SessionsShow(me, sessions + [s], held, S.OpenSession(c, usr.View()).sessions)
  {
  }

  lemma MemberShows(me: User, s: Session, held: set<Message>, v: S.ChatSession, fp: Name)
    requires SessionShows(me, s, held, v)
    ensures s.HasUser(fp) <==> S.HasMember(v, fp, me.fingerprint)
  {
  }

  class TMCSAnonymous {
    const user: User
    const asksApplication: bool
    var contacts: map<Name, User>
    var sessions: seq<Session>
    var messageArchive: seq<Message?>
    var packageArchive: seq<Option<Frame>>
    /** Every message some session may hold. */
    ghost var held: set<Message>

    constructor (user: User, asksApplication: bool)
      ensures Shows(S.Initial(user.fingerprint, asksApplication))
      ensures this.user == user && fresh(this)
    {
      this.user := user;
      this.asksApplication := asksApplication;
      contacts := map[];
      sessions := [];
      messageArchive := [null];
      packageArchive := [None];
      held := {};
    }

    /** Own and foreign user objects are different, also when somebody else uses the own key. */
    ghost predicate Shows(c: S.Client)
      reads this, sessions, held, messageArchive
    {
      && c.me == user.fingerprint && c.asksApplication == asksApplication && c.packs == |packageArchive|
      && ContactsShow(contacts, c.contacts) && user !in contacts.Values
      && (forall m | m in messageArchive && m != null :: m.request != user)
      && SessionsShow(user, sessions, held, c.sessions)
      && ArchiveShows(messageArchive, c.archive)
    }

    /** A message object that is not archived and that no session holds. */
    ghost predicate Unknown(m: Message)
      reads this
    {
      m !in held && m !in messageArchive
    }

    // ---- sending ----

    /** The frame is given its id; signing it and writing it to the socket are awaited. */
    method SendPack(body: Body, receiver: Name, ghost c: S.Client) returns (signing: Frame)
      requires Shows(c)
      modifies this`packageArchive
      ensures Shows(S.SendPack(c, body, receiver))
      ensures S.SendPack(c, body, receiver).tasks == c.tasks + [S.Signing(signing)]
    {
      signing := Frame(|packageArchive|, user.fingerprint, receiver, body);
      packageArchive := packageArchive + [Some(signing)];
    }

    /** A message object as the client makes them for sending. */
    ghost predicate Sendable(m: Message)
      reads this, m
    {
      Unknown(m) && m.state.None? && m.request != user
    }

    /** Archives the message under the next id, and goes on if the receiver is a contact. An
        object that was archived before is then in two places, with the new id in both. */
    method Send(message: Message, ghost c: S.Client) returns (encrypting: bool)
      requires Shows(c)
      modifies this`messageArchive, message`msgId
      ensures old(Sendable(message)) ==> Shows(S.StartSend(c, message.receiver, message.body, message.Kind()))
      ensures forall j | 0 <= j < |c.archive| && old(messageArchive)[j] == message ::
        ValuesShow(messageArchive, C.SendAgain(c.archive, j))
      ensures messageArchive == old(messageArchive) + [message] && message.msgId == |old(messageArchive)|
      ensures encrypting <==> message.receiver in contacts
    {
      message.msgId := |messageArchive|;
      messageArchive := messageArchive + [message];
      encrypting := message.receiver in contacts;
    }

    /** What the timer of `Session.send` does with the messages made for the recipients. */
    method SendAll(messages: seq<Message>, recipients: seq<Name>, text: nat, ghost c: S.Client)
      requires Shows(c) && ForRecipients(messages, recipients, text)
      requires forall m | m in messages :: Unknown(m) && m.state.None?
      modifies this`messageArchive, messages
      ensures Shows(S.StartSends(c, recipients, text))
    {
      ghost var cur := c;
      for i := 0 to |messages|
        invariant Shows(cur) && S.StartSends(cur, recipients[i..], text) == S.StartSends(c, recipients, text)
        invariant held == old(held)
        invariant forall k | i <= k < |messages| :: Unknown(messages[k]) && messages[k].state.None?
      {
        var _ := Send(messages[i], cur);
        cur := S.StartSend(cur, recipients[i], text, S.Chat);
        assert recipients[i..][1..] == recipients[i + 1..];
      }
    }

    // ---- receipts ----

    method OpenSession(usr: User, ghost c: S.Client) returns (session: Session)
      requires Shows(c) && usr != user
      modifies this`sessions
      ensures fresh(session) && sessions == old(sessions) + [session]
      ensures Shows(S.OpenSession(c, usr.View()))
    {
      session := new Session([user, usr]);
      OpenShows(user, sessions, held, c, session, usr);
      sessions := sessions + [session];
    }

    method ApplyReceipt(r: Receipt, ghost c: S.Client)
      requires Shows(c)
      modifies this`sessions, messageArchive
      ensures Shows(S.ApplyReceipt(c, r))
    {
      if 0 <= r.msgId < |messageArchive| {
        var msg := messageArchive[r.msgId];
        if msg != null {
          msg.state := Some(r.state);
          ghost var c' := c.(archive := c.archive[r.msgId := Some(msg.Archived())]);
          assert Shows(c');
          if msg.request != null && r.state == Received {
            var _ := OpenSession(msg.request, c');
          }
        }
      }
    }

    method ReceiptHandler(receipts: seq<Receipt>, ghost c: S.Client)
      requires Shows(c)
      modifies this`sessions, messageArchive
      ensures Shows(S.ApplyReceipts(c, receipts))
    {
      ghost var cur := c;
      for i := 0 to |receipts|
        invariant Shows(cur) && S.ApplyReceipts(cur, receipts[i..]) == S.ApplyReceipts(c, receipts)
      {
        ApplyReceipt(receipts[i], cur);
        cur := S.ApplyReceipt(cur, receipts[i]);
        assert receipts[i..][1..] == receipts[i + 1..];
      }
    }

    // ---- messages ----

    method FindSession(fp: Name, ghost c: S.Client) returns (session: Session?, ghost k: nat)
      requires Shows(c)
      ensures session == null <==> S.FirstWith(c.sessions, fp, c.me).None?
      ensures session != null ==> S.FirstWith(c.sessions, fp, c.me) == Some(k)
      ensures session != null ==> k < |sessions| && session == sessions[k]
    {
      session, k := null, 0;
      for i := 0 to |sessions|
        invariant session == null ==> forall j | 0 <= j < i :: !S.HasMember(c.sessions[j], fp, c.me)
        invariant session != null ==> S.FirstWith(c.sessions, fp, c.me) == Some(k)
        invariant session != null ==> k < |sessions| && session == sessions[k]
      {
        MemberShows(user, sessions[i], held, c.sessions[i], fp);
        if session == null && sessions[i].HasUser(fp) {
          session, k := sessions[i], i;
          C.FirstWithUnique(c.sessions, fp, c.me, i);
        }
      }
    }

    method Deliver(usr: User, msg: Message, ghost c: S.Client)
      requires Shows(c) && usr != user && Unknown(msg)
      modifies this`sessions, this`held, sessions
      ensures Shows(S.Deliver(c, usr.View(), msg.Shown()))
      ensures held == old(held) + {msg}
      ensures forall k | 0 <= k < |sessions| ::
          (k < |old(sessions)| && sessions[k] == old(sessions)[k]) || fresh(sessions[k])
    {
      var session, k := FindSession(msg.sender, c);
      ghost var c' := c;
      if session == null {
        session := OpenSession(usr, c);
        c', k := S.OpenSession(c, usr.View()), |c.sessions|;
      }
      PushMessage(session, k, msg, c');
    }

    method PushMessage(session: Session, ghost k: nat, msg: Message, ghost c: S.Client)
      requires Shows(c) && k < |sessions| && session == sessions[k] && Unknown(msg)
      modifies this`held, session
      ensures Shows(c.(sessions := S.PushMessage(c.sessions, k, msg.Shown())))
      ensures held == old(held) + {msg}
    {
      session.messages := session.messages + [msg];
      held := held + {msg};
    }

    /** One message object for each entry of a pack. */
    method Incoming(sender: Name, entries: seq<Entry>) returns (messages: seq<Message>)
      ensures MessagesShow(messages, S.Incoming(sender, entries))
      ensures UnknownFrom(messages, 0)
    {
      messages := [];
      for i := 0 to |entries|
        invariant MessagesShow(messages, S.Incoming(sender, entries)[..i])
        invariant UnknownFrom(messages, 0)
      {
        var e := entries[i];
        var m := new Message(sender, e.receiver, e.text, e.msgId, null);
        messages := messages + [m];
      }
    }

    method DeliverAll(usr: User, messages: seq<Message>, ghost vs: seq<S.ChatMessage>, ghost c: S.Client)
      requires Shows(c) && usr != user && MessagesShow(messages, vs)
      requires UnknownFrom(messages, 0)
      modifies this`sessions, this`held, sessions
      ensures Shows(S.DeliverAll(c, usr.View(), vs))
    {
      ghost var cur := c;
      for i := 0 to |messages|
        invariant Shows(cur) && Delivers(cur, usr.View(), vs[i..], c, vs)
        invariant MessagesShow(messages, vs) && UnknownFrom(messages, i)
        invariant forall k | 0 <= k < |sessions| ::
            (k < |old(sessions)| && sessions[k] == old(sessions)[k]) || fresh(sessions[k])
      {
        DeliversStep(cur, usr.View(), vs, i, c);
        DeliverNext(usr, messages, i, vs, cur);
        cur := S.Deliver(cur, usr.View(), vs[i]);
      }
    }

    /** What a loop over different messages still has before it. */
    ghost predicate UnknownFrom(messages: seq<Message>, i: nat)
      reads this
    {
      && (forall k | i <= k < |messages| :: Unknown(messages[k]))
      && (forall k, j | i <= k < j < |messages| :: messages[k] != messages[j])
    }

    method DeliverNext(usr: User, messages: seq<Message>, i: nat, ghost vs: seq<S.ChatMessage>, ghost c: S.Client)
      requires Shows(c) && usr != user && MessagesShow(messages, vs) && i < |vs| && UnknownFrom(messages, i)
      modifies this`sessions, this`held, sessions
      ensures Shows(S.Deliver(c, usr.View(), vs[i]))
      ensures MessagesShow(messages, vs) && UnknownFrom(messages, i + 1)
      ensures forall k | 0 <= k < |sessions| ::
          (k < |old(sessions)| && sessions[k] == old(sessions)[k]) || fresh(sessions[k])
    {
      Deliver(usr, messages[i], c);
    }

    /** A pack of a contact: the receipt is on its way before the messages are shown. */
    method MsgHandlerKnown(entries: seq<Entry>, sender: Name, ghost c: S.Client) returns (signing: Frame)
      requires Shows(c) && sender in contacts
      modifies this`packageArchive, this`sessions, this`held, sessions
      ensures Shows(S.HandleMessages(c, sender, entries))
      ensures S.HandleMessages(c, sender, entries).tasks == c.tasks + [S.Signing(signing)]
    {
      ghost var vs := S.Incoming(sender, entries);
      var messages := Incoming(sender, entries);
      var usr := contacts[sender];
      var receipt := GenReceipt(messages, Received, vs);
      signing := SendPack(receipt, sender, c);
      DeliverAll(usr, messages, vs, S.SendPack(c, receipt, sender));
      DeliverAllKeepsTasks(S.SendPack(c, receipt, sender), usr.View(), vs);
    }

    method GenReceipt(messages: seq<Message>, state: ReceiptState, ghost vs: seq<S.ChatMessage>) returns (body: Body)
      requires MessagesShow(messages, vs)
      ensures body == S.GenReceipt(vs, state)
    {
      var receipts := [];
      for i := 0 to |messages|
        invariant receipts == S.GenReceipt(vs, state).receipts[..i]
      {
        receipts := receipts + [Receipt(messages[i].msgId, state)];
      }
      body := ReceiptPack(receipts);
    }

    /** The end of a contact request, once its key is read and the application has answered. */
    method Decide(messages: seq<Message>, sender: Name, usr: User, accept: bool, ghost vs: seq<S.ChatMessage>,
                  ghost c: S.Client)
        returns (signing: Option<Frame>)
      requires Shows(c) && usr != user && MessagesShow(messages, vs)
      modifies this`packageArchive, this`sessions, this`contacts
      ensures Shows(S.Decide(c, sender, vs, accept, usr.View()))
      ensures S.Decide(c, sender, vs, accept, usr.View()).tasks ==
              c.tasks + match signing case Some(f) => [S.Signing(f)] case None => []
    {
      if usr.fingerprint != sender {
        return None;
      }
      var state := if !asksApplication then Lost else if !accept then Reject else Received;
      var body := GenReceipt(messages, state, vs);
      ghost var c' := c;
      if state == Received {
        contacts := contacts[usr.fingerprint := usr];
        c' := c.(contacts := c.contacts[usr.fingerprint := usr.View()]);
        assert Shows(c');
      }
      var f := SendPack(body, sender, c');
      signing := Some(f);
      if state == Received {
        var _ := OpenSession(usr, S.SendPack(c', body, sender));
      }
    }

    // ---- what the application starts ----

    method ContactRequest(usr: User, ghost c: S.Client)
      requires Shows(c) && usr != user
      modifies this`contacts
      ensures Shows(S.RequestContact(c, usr.View()))
      ensures contacts == old(contacts)[usr.fingerprint := usr]
    {
      contacts := contacts[usr.fingerprint := usr];
    }

    /** `Session.send`: the text is shown at once; the result is what its timer will send. */
    method SendText(session: Session, ghost k: nat, text: nat, ghost c: S.Client)
        returns (messages: seq<Message>, ghost recipients: seq<Name>)
      requires Shows(c) && k < |sessions| && session == sessions[k]
      modifies this`held, session
      ensures Shows(S.SendText(c, k, text))
      ensures S.SendText(c, k, text).tasks == c.tasks + [S.SendTimer(recipients, text)]
      ensures ForRecipients(messages, recipients, text)
      ensures forall m | m in messages :: fresh(m) && Unknown(m) && m.state.None?
    {
      recipients := S.Others(c.sessions[k].users);
      var message := new Message(user.fingerprint, Nobody, text, -1, null);
      PushMessage(session, k, message, c);
      messages := MessagesFor(session.users, text, c.sessions[k].users);
    }

    /** A message for every member whose user object is not the client's own. */
    method MessagesFor(users: seq<User>, text: nat, ghost vs: seq<S.Member>) returns (messages: seq<Message>)
      requires UsersShow(user, users, vs)
      ensures ForRecipients(messages, S.Others(vs), text)
      ensures forall m | m in messages :: fresh(m) && m.state.None?
    {
      messages := [];
      for i := 0 to |users|
        invariant ForRecipients(messages, S.Others(vs[..i]), text)
        invariant forall m | m in messages :: fresh(m) && m.state.None?
      {
        OthersSnoc(vs[..i], vs[i]);
        assert vs[..i + 1] == vs[..i] + [vs[i]];
        if users[i] != user {
          var m := new Message(user.fingerprint, users[i].fingerprint, text, -1, null);
          messages := messages + [m];
        }
      }
      assert vs[..|users|] == vs;
    }
  }

  lemma {:induction false} OthersSnoc(vs: seq<S.Member>, v: S.Member)
    ensures S.Others(vs + [v]) == S.Others(vs) + if v.Peer? then [v.user.fp] else []
  {
    if vs == [] {
      assert vs + [v] == [v];
    } else {
      OthersSnoc(vs[1..], v);
      assert (vs + [v])[1..] == vs[1..] + [v];
    }
  }

  /** What is left to deliver leads where the whole delivery leads. */
  ghost predicate Delivers(cur: S.Client, usr: S.User, rest: seq<S.ChatMessage>, c: S.Client, vs: seq<S.ChatMessage>) {
    S.DeliverAll(cur, usr, rest) == S.DeliverAll(c, usr, vs)
  }

  lemma DeliversStep(cur: S.Client, usr: S.User, vs: seq<S.ChatMessage>, i: nat, c: S.Client)
    requires i < |vs| && Delivers(cur, usr, vs[i..], c, vs)
    ensures Delivers(S.Deliver(cur, usr, vs[i]), usr, vs[i + 1..], c, vs)
  {
    assert vs[i..][1..] == vs[i + 1..];
  }

  lemma {:induction false} DeliverAllKeepsTasks(c: S.Client, usr: S.User, ms: seq<S.ChatMessage>)
    ensures S.DeliverAll(c, usr, ms).tasks == c.tasks
    decreases |ms|
  {
    if ms != [] {
      DeliverAllKeepsTasks(S.Deliver(c, usr, ms[0]), usr, ms[1..]);
    }
  }

  ghost predicate ForRecipients(messages: seq<Message>, recipients: seq<Name>, text: nat) {
    && |messages| == |recipients|
    && (forall i | 0 <= i < |messages| :: messages[i].receiver == recipients[i] && messages[i].body == text
          && messages[i].request == null)
    && (forall i, j | 0 <= i < j < |messages| :: messages[i] != messages[j])
  }
}
