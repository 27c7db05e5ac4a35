/**
  At most once, from end to end. Whatever connections lose and the server drops, reports or
  delivers late: every message a client holds was archived by its sender for this client,
  with this text, and is held once. The proof counts the places where a message can be on its
  way: waiting for encryption, in a frame to be signed, on a connection, in a mailbox, or in
  a session.
*/
module HeldOnce {
  import opened Basics
  import opened Frames
  import opened Protocol
  import S = ChatClient
  import C = ClientLaws
  import R = Relay
  import L = RelayLaws

  // ---- sums ----

  function Sum<T(!new)>(xs: seq<T>, weight: T -> nat): nat {
    if xs == [] then 0 else Sum(xs[..|xs| - 1], weight) + weight(xs[|xs| - 1])
  }

  lemma SumSnoc<T(!new)>(xs: seq<T>, x: T, weight: T -> nat)
    ensures Sum(xs + [x], weight) == Sum(xs, weight) + weight(x)
  {
    assert (xs + [x])[..|xs|] == xs;
  }

  lemma {:induction false} SumConcat<T(!new)>(xs: seq<T>, ys: seq<T>, weight: T -> nat)
    ensures Sum(xs + ys, weight) == Sum(xs, weight) + Sum(ys, weight)
    decreases |ys|
  {
    if ys == [] {
      assert xs + ys == xs;
    } else {
      var n := |ys| - 1;
      SumConcat(xs, ys[..n], weight);
      assert xs + ys == (xs + ys[..n]) + [ys[n]];
      SumSnoc(xs + ys[..n], ys[n], weight);
    }
  }

  lemma SumOne<T(!new)>(x: T, weight: T -> nat)
    ensures Sum([x], weight) == weight(x)
  {
    SumSnoc([], x, weight);
    assert [] + [x] == [x];
  }

  /** The sum with one position taken out. */
  lemma SumCut<T(!new)>(xs: seq<T>, i: nat, weight: T -> nat)
    requires i < |xs|
    ensures Sum(Cut(xs, i), weight) + weight(xs[i]) == Sum(xs, weight)
  {
    var before, after := xs[..i], xs[i + 1..];
    assert xs == before + [xs[i]] + after;
    SumConcat(before + [xs[i]], after, weight);
    SumSnoc(before, xs[i], weight);
    SumConcat(before, after, weight);
  }

  lemma SumUpdate<T(!new)>(xs: seq<T>, i: nat, y: T, weight: T -> nat)
    requires i < |xs|
    ensures Sum(xs[i := y], weight) + weight(xs[i]) == Sum(xs, weight) + weight(y)
  {
    var ys := xs[i := y];
    SumCut(xs, i, weight);
    SumCut(ys, i, weight);
    assert Cut(ys, i) == Cut(xs, i);
  }

  lemma SumHead<T(!new)>(xs: seq<T>, weight: T -> nat)
    requires xs != []
    ensures Sum(xs, weight) == weight(xs[0]) + Sum(xs[1..], weight)
  {
    assert xs == [xs[0]] + xs[1..];
    SumConcat([xs[0]], xs[1..], weight);
    SumOne(xs[0], weight);
  }

  /** Two positions are both counted. */
  lemma SumTwo<T(!new)>(xs: seq<T>, i: nat, k: nat, weight: T -> nat)
    requires i < k < |xs|
    ensures Sum(xs, weight) >= weight(xs[i]) + weight(xs[k])
  {
    SumCut(xs, k, weight);
    assert Cut(xs, k)[i] == xs[i];
    SumCut(Cut(xs, k), i, weight);
  }

  lemma SumMember<T(!new)>(xs: seq<T>, i: nat, weight: T -> nat)
    requires i < |xs|
    ensures Sum(xs, weight) >= weight(xs[i])
  {
    SumCut(xs, i, weight);
  }

  // ---- where a message can be ----

  /** Message `n` of client `a`, on its way to client `b`. */
  datatype Tag = Tag(a: Name, n: nat, b: Name)

  function OfEntry(q: Tag): Entry -> nat {
    (e: Entry) => if e.msgId == q.n then 1 else 0
  }

  function OfFrame(q: Tag): Frame -> nat {
    (f: Frame) =>
      if f.sender == q.a && f.receiver == q.b && f.body.MessagePack? then Sum(f.body.entries, OfEntry(q)) else 0
  }

  function TaskPlaces(q: Tag, t: S.Task): nat {
    match t
    case Encrypting(n) => if n == q.n then 1 else 0
    case Signing(f) => OfFrame(q)(f)
    case _ => 0
  }

  function OfTask(q: Tag): S.Task -> nat {
    (t: S.Task) => TaskPlaces(q, t)
  }

  function OfMessage(q: Tag): S.ChatMessage -> nat {
    (m: S.ChatMessage) => if m.sender == q.a && m.msgId == q.n then 1 else 0
  }

  function OfSession(q: Tag): S.ChatSession -> nat {
    (s: S.ChatSession) => Sum(s.messages, OfMessage(q))
  }

  function OfUp(q: Tag): Link -> nat {
    (l: Link) => Sum(l.up, OfFrame(q))
  }

  function OfDown(q: Tag): Link -> nat {
    (l: Link) => Sum(l.down, OfFrame(q))
  }

  function OfMail(q: Tag): R.SessionMessage -> nat {
    (m: R.SessionMessage) => OfFrame(q)(m.msg)
  }

  function OfUser(q: Tag): R.User -> nat {
    (u: R.User) => Sum(u.mailbox, OfMail(q))
  }

  function TasksOf(q: Tag, cs: Clients): nat {
    if q.a in cs then Sum(cs[q.a].tasks, OfTask(q)) else 0
  }

  function HeldOf(q: Tag, cs: Clients): nat {
    if q.b in cs then Sum(cs[q.b].sessions, OfSession(q)) else 0
  }

  function LinksOf(q: Tag, links: seq<Link>): nat {
    Sum(links, OfUp(q)) + Sum(links, OfDown(q))
  }

  function MailOf(q: Tag, s: R.Server): nat {
    Sum(s.users, OfUser(q))
  }

  /** In how many places the message is. */
  function Places(q: Tag, w: World): nat {
    TasksOf(q, w.clients) + LinksOf(q, w.links) + MailOf(q, w.server) + HeldOf(q, w.clients)
  }

  /** One place at most, and none before the message is archived. */
  function Made(c: S.Client, n: nat): nat {
    if n < |c.archive| then 1 else 0
  }

  function MadeBy(q: Tag, cs: Clients): nat {
    if q.a in cs then Made(cs[q.a], q.n) else 0
  }

  // ---- a client's local step ----

  lemma StartSendPlaces(c: S.Client, q: Tag, receiver: Name, text: nat, kind: S.Kind)
    ensures
      var d := S.StartSend(c, receiver, text, kind);
      Sum(d.tasks, OfTask(q)) + Made(c, q.n) <= Sum(c.tasks, OfTask(q)) + Made(d, q.n)
  {
    SumSnoc(c.tasks, S.Encrypting(|c.archive|), OfTask(q));
  }

  lemma {:induction false} StartSendsPlaces(c: S.Client, q: Tag, recipients: seq<Name>, text: nat)
    ensures
      var d := S.StartSends(c, recipients, text);
      Sum(d.tasks, OfTask(q)) + Made(c, q.n) <= Sum(c.tasks, OfTask(q)) + Made(d, q.n)
    decreases |recipients|
  {
    if recipients != [] {
      StartSendPlaces(c, q, recipients[0], text, S.Chat);
      StartSendsPlaces(S.StartSend(c, recipients[0], text, S.Chat), q, recipients[1..], text);
    }
  }

  lemma SendPackPlaces(c: S.Client, q: Tag, body: Body, receiver: Name)
    ensures
      var d := S.SendPack(c, body, receiver);
      Sum(d.tasks, OfTask(q)) == Sum(c.tasks, OfTask(q)) + OfFrame(q)(Frame(c.packs, c.me, receiver, body))
  {
    SumSnoc(c.tasks, S.Signing(Frame(c.packs, c.me, receiver, body)), OfTask(q));
  }

  lemma DropPlaces(c: S.Client, q: Tag, k: nat)
    requires k < |c.tasks|
    ensures Sum(S.Drop(c, k).tasks, OfTask(q)) + OfTask(q)(c.tasks[k]) == Sum(c.tasks, OfTask(q))
  {
    SumCut(c.tasks, k, OfTask(q));
  }

  function SentPlaces(q: Tag, sent: Option<Frame>): nat {
    if sent.Some? then OfFrame(q)(sent.value) else 0
  }

  /** A local step makes a place only for a message that it archives. */
  ghost predicate StepPlaces(c: S.Client, d: S.Client, sent: Option<Frame>, q: Tag) {
    Sum(d.tasks, OfTask(q)) + SentPlaces(q, sent) + Made(c, q.n) <= Sum(c.tasks, OfTask(q)) + Made(d, q.n)
  }

  /** A pack of one message. */
  function PackOf(c: S.Client, m: S.Archived): S.Client {
    S.SendPack(c, MessagePack([Entry(m.msgId, m.receiver, m.text)]), m.receiver)
  }

  lemma PackPlaces(c: S.Client, q: Tag, m: S.Archived)
    ensures Sum(PackOf(c, m).tasks, OfTask(q)) <= Sum(c.tasks, OfTask(q)) + if m.msgId == q.n then 1 else 0
  {
    var entry := Entry(m.msgId, m.receiver, m.text);
    SendPackPlaces(c, q, MessagePack([entry]), m.receiver);
    SumOne(entry, OfEntry(q));
  }

  lemma EncryptingEffect(c: S.Client, k: nat, how: S.Resume)
    requires C.Sound(c) && k < |c.tasks| && c.tasks[k].Encrypting?
    ensures
      var e, n := S.ResumeTask(c, k, how), c.tasks[k].index;
      && e.sent == None
      && (e.client == S.Drop(c, k) || (n < |c.archive| && c.archive[n].Some? && c.archive[n].value.msgId == n
                                       && e.client == PackOf(S.Drop(c, k), c.archive[n].value)))
  {
  }

  lemma DroppedPlaces(c: S.Client, q: Tag, k: nat)
    requires k < |c.tasks|
    ensures StepPlaces(c, S.Drop(c, k), None, q)
  {
    DropPlaces(c, q, k);
  }

  lemma PackedPlaces(c: S.Client, q: Tag, k: nat, m: S.Archived)
    requires k < |c.tasks| && m.msgId >= 0 && c.tasks[k] == S.Encrypting(m.msgId)
    ensures StepPlaces(c, PackOf(S.Drop(c, k), m), None, q)
  {
    DropPlaces(c, q, k);
    PackPlaces(S.Drop(c, k), q, m);
  }

  lemma EncryptingPlaces(c: S.Client, q: Tag, k: nat, how: S.Resume)
    requires C.Sound(c) && k < |c.tasks| && c.tasks[k].Encrypting?
    ensures var e := S.ResumeTask(c, k, how); StepPlaces(c, e.client, e.sent, q)
  {
    var n := c.tasks[k].index;
    EncryptingEffect(c, k, how);
    DroppedPlaces(c, q, k);
    if n < |c.archive| && c.archive[n].Some? && c.archive[n].value.msgId == n {
      PackedPlaces(c, q, k, c.archive[n].value);
    }
  }

  lemma DecidingPlaces(c: S.Client, q: Tag, k: nat, how: S.Resume)
    requires k < |c.tasks| && c.tasks[k].Deciding?
    ensures var e := S.ResumeTask(c, k, how); StepPlaces(c, e.client, e.sent, q)
  {
    var d, sender, ms := S.Drop(c, k), c.tasks[k].sender, c.tasks[k].messages;
    DropPlaces(c, q, k);
    if how.Decided? && how.user.fp == sender {
      var state := if !c.asksApplication then Lost else if !how.accept then Reject else Received;
      SendPackPlaces(d, q, S.GenReceipt(ms, state), sender);
    }
  }

  lemma ResumePlaces(c: S.Client, q: Tag, k: nat, how: S.Resume)
    requires C.Sound(c)
    ensures var e := S.ResumeTask(c, k, how); StepPlaces(c, e.client, e.sent, q)
  {
    if k < |c.tasks| {
      DropPlaces(c, q, k);
      match c.tasks[k]
      case RequestEncrypted(user) => StartSendPlaces(S.Drop(c, k), q, user.fp, user.key, S.ContactRequest(user));
      case SendTimer(recipients, text) => StartSendsPlaces(S.Drop(c, k), q, recipients, text);
      case Encrypting(_) => EncryptingPlaces(c, q, k, how);
      case Signing(_) =>
      case Deciding(_, _) => DecidingPlaces(c, q, k, how);
    }
  }

  lemma ActPlaces(c: S.Client, q: Tag, action: S.Action)
    requires C.Sound(c) && !action.Arrive?
    ensures var e := S.Act(c, action); StepPlaces(c, e.client, e.sent, q)
  {
    match action
    case AskContact(user) => SumSnoc(c.tasks, S.RequestEncrypted(user), OfTask(q));
    case SayIn(k, text) =>
      if k < |c.sessions| {
        SumSnoc(c.tasks, S.SendTimer(S.Others(c.sessions[k].users), text), OfTask(q));
      }
    case ResumeAt(k, how) => ResumePlaces(c, q, k, how);
  }

  // ---- what the sessions of a client hold ----

  lemma PushPlaces(sessions: seq<S.ChatSession>, k: nat, m: S.ChatMessage, q: Tag)
    requires k < |sessions|
    ensures Sum(S.PushMessage(sessions, k, m), OfSession(q)) == Sum(sessions, OfSession(q)) + OfMessage(q)(m)
  {
    var s := sessions[k];
    SumUpdate(sessions, k, s.(messages := s.messages + [m]), OfSession(q));
    SumSnoc(s.messages, m, OfMessage(q));
  }

  lemma OpenPlaces(c: S.Client, user: S.User, q: Tag)
    ensures Sum(S.OpenSession(c, user).sessions, OfSession(q)) == Sum(c.sessions, OfSession(q))
  {
    SumSnoc(c.sessions, S.ChatSession([S.Self, S.Peer(user)], []), OfSession(q));
  }

  lemma DeliverPlaces(c: S.Client, usr: S.User, m: S.ChatMessage, q: Tag)
    ensures Sum(S.Deliver(c, usr, m).sessions, OfSession(q)) == Sum(c.sessions, OfSession(q)) + OfMessage(q)(m)
  {
    var first := S.FirstWith(c.sessions, m.sender, c.me);
    if first.None? {
      OpenPlaces(c, usr, q);
      PushPlaces(S.OpenSession(c, usr).sessions, |c.sessions|, m, q);
    } else {
      PushPlaces(c.sessions, first.value, m, q);
    }
  }

  lemma {:induction false} DeliverAllPlaces(c: S.Client, usr: S.User, ms: seq<S.ChatMessage>, q: Tag)
    ensures Sum(S.DeliverAll(c, usr, ms).sessions, OfSession(q))
        == Sum(c.sessions, OfSession(q)) + Sum(ms, OfMessage(q))
    decreases |ms|
  {
    if ms != [] {
      SumHead(ms, OfMessage(q));
      DeliverPlaces(c, usr, ms[0], q);
      DeliverAllPlaces(S.Deliver(c, usr, ms[0]), usr, ms[1..], q);
    }
  }

  lemma {:induction false} IncomingPlaces(sender: Name, entries: seq<Entry>, q: Tag)
    ensures Sum(S.Incoming(sender, entries), OfMessage(q)) == if sender == q.a then Sum(entries, OfEntry(q)) else 0
    decreases |entries|
  {
    if entries != [] {
      var n := |entries| - 1;
      var ms := S.Incoming(sender, entries);
      assert ms[..n] == S.Incoming(sender, entries[..n]);
      IncomingPlaces(sender, entries[..n], q);
    }
  }

  lemma {:induction false} ApplyReceiptsPlaces(c: S.Client, rs: seq<Receipt>, q: Tag)
    ensures
      var d := S.ApplyReceipts(c, rs);
      d.tasks == c.tasks && |d.archive| == |c.archive| && Sum(d.sessions, OfSession(q)) == Sum(c.sessions, OfSession(q))
    decreases |rs|
  {
    if rs != [] {
      var r := rs[0];
      if 0 <= r.msgId < |c.archive| && c.archive[r.msgId].Some? && c.archive[r.msgId].value.kind.ContactRequest? {
        OpenPlaces(c, c.archive[r.msgId].value.kind.user, q);
      }
      ApplyReceiptsPlaces(S.ApplyReceipt(c, r), rs[1..], q);
    }
  }

  lemma MessagesPlaces(c: S.Client, sender: Name, entries: seq<Entry>, q: Tag)
    ensures
      var d := S.HandleMessages(c, sender, entries);
      && Sum(d.tasks, OfTask(q)) == Sum(c.tasks, OfTask(q)) && |d.archive| == |c.archive|
      && Sum(d.sessions, OfSession(q)) <= Sum(c.sessions, OfSession(q)) + Sum(S.Incoming(sender, entries), OfMessage(q))
  {
    var ms := S.Incoming(sender, entries);
    if sender in c.contacts {
      var body := S.GenReceipt(ms, Received);
      SendPackPlaces(c, q, body, sender);
      DeliverAllShape(S.SendPack(c, body, sender), c.contacts[sender], ms);
      DeliverAllPlaces(S.SendPack(c, body, sender), c.contacts[sender], ms, q);
    } else {
      SumSnoc(c.tasks, S.Deciding(sender, ms), OfTask(q));
    }
  }

  /** Handling a frame puts the messages it carries into sessions, at most. */
  lemma HandlePlaces(c: S.Client, f: Frame, q: Tag)
    ensures
      var d := S.Handle(c, f);
      && Sum(d.tasks, OfTask(q)) == Sum(c.tasks, OfTask(q)) && |d.archive| == |c.archive|
      && (f.receiver == q.b ==> Sum(d.sessions, OfSession(q)) <= Sum(c.sessions, OfSession(q)) + OfFrame(q)(f))
  {
    match f.body
    case MessagePack(entries) =>
      MessagesPlaces(c, f.sender, entries, q);
      IncomingPlaces(f.sender, entries, q);
    case ReceiptPack(rs) => ApplyReceiptsPlaces(c, rs, q);
    case _ =>
  }

  /** Nothing but an arriving frame adds a message of another client to a session. */
  lemma ActHolds(c: S.Client, q: Tag, action: S.Action)
    requires !action.Arrive?
    ensures Sum(S.Act(c, action).client.sessions, OfSession(q)) == Sum(c.sessions, OfSession(q))
  {
    match action
    case AskContact(_) =>
    case SayIn(k, text) =>
      if k < |c.sessions| {
        PushPlaces(c.sessions, k, S.ChatMessage(-1, c.me, Nobody, text), q);
      }
    case ResumeAt(k, how) => ResumeHolds(c, q, k, how);
  }

  lemma ResumeHolds(c: S.Client, q: Tag, k: nat, how: S.Resume)
    ensures Sum(S.ResumeTask(c, k, how).client.sessions, OfSession(q)) == Sum(c.sessions, OfSession(q))
  {
    if k < |c.tasks| && c.tasks[k].Deciding? && how.Decided? {
      OpenPlaces(c, how.user, q);
    } else {
      C.OtherTasksKeepSessions(c, k, how);
    }
  }

  // ---- connections ----

  lemma LinkChangePlaces(links: seq<Link>, k: nat, l: Link, q: Tag)
    requires k < |links|
    ensures LinksOf(q, links[k := l]) + OfUp(q)(links[k]) + OfDown(q)(links[k])
         == LinksOf(q, links) + OfUp(q)(l) + OfDown(q)(l)
  {
    SumUpdate(links, k, l, OfUp(q));
    SumUpdate(links, k, l, OfDown(q));
  }

  lemma PutUp(links: seq<Link>, k: nat, f: Frame, q: Tag)
    requires k < |links|
    ensures LinksOf(q, links[k := links[k].(up := links[k].up + [f])]) == LinksOf(q, links) + OfFrame(q)(f)
  {
    LinkChangePlaces(links, k, links[k].(up := links[k].up + [f]), q);
    SumSnoc(links[k].up, f, OfFrame(q));
  }

  lemma PutDown(links: seq<Link>, k: nat, f: Frame, q: Tag)
    requires k < |links|
    ensures LinksOf(q, links[k := links[k].(down := links[k].down + [f])]) == LinksOf(q, links) + OfFrame(q)(f)
  {
    LinkChangePlaces(links, k, links[k].(down := links[k].down + [f]), q);
    SumSnoc(links[k].down, f, OfFrame(q));
  }

  lemma TakeUp(links: seq<Link>, k: nat, q: Tag)
    requires k < |links| && links[k].up != []
    ensures LinksOf(q, links[k := links[k].(up := links[k].up[1..])]) + OfFrame(q)(links[k].up[0]) == LinksOf(q, links)
  {
    LinkChangePlaces(links, k, links[k].(up := links[k].up[1..]), q);
    SumHead(links[k].up, OfFrame(q));
  }

  lemma TakeDown(links: seq<Link>, k: nat, q: Tag)
    requires k < |links| && links[k].down != []
    ensures LinksOf(q, links[k := links[k].(down := links[k].down[1..])]) + OfFrame(q)(links[k].down[0])
         == LinksOf(q, links)
  {
    LinkChangePlaces(links, k, links[k].(down := links[k].down[1..]), q);
    SumHead(links[k].down, OfFrame(q));
  }

  lemma Lose(links: seq<Link>, k: nat, q: Tag)
    requires k < |links|
    ensures LinksOf(q, links[k := links[k].(up := [])]) <= LinksOf(q, links)
    ensures LinksOf(q, links[k := links[k].(down := [])]) <= LinksOf(q, links)
  {
    LinkChangePlaces(links, k, links[k].(up := []), q);
    LinkChangePlaces(links, k, links[k].(down := []), q);
  }

  lemma NewLinkPlaces(links: seq<Link>, fp: Name, q: Tag)
    ensures LinksOf(q, links + [Link(fp, [], [])]) == LinksOf(q, links)
  {
    SumSnoc(links, Link(fp, [], []), OfUp(q));
    SumSnoc(links, Link(fp, [], []), OfDown(q));
  }

  // ---- mailboxes ----

  lemma PostPlaces(s: R.Server, to: nat, m: R.SessionMessage, q: Tag)
    requires to < |s.users|
    ensures MailOf(q, R.PostTo(s, to, m)) <= MailOf(q, s) + OfFrame(q)(m.msg)
  {
    var u, v := s.users[to], R.PostTo(s, to, m).users[to];
    SumUpdate(s.users, to, v, OfUser(q));
    SumSnoc(u.mailbox, m, OfMail(q));
  }

  lemma ErrorPlaces(s: R.Server, user: nat, code: ErrorCode, about: int, q: Tag)
    requires user < |s.users|
    ensures MailOf(q, R.PostError(s, user, code, about)) <= MailOf(q, s)
  {
    PostPlaces(s, user, R.ErrorMessage(user, s.users[user].fp, code, about), q);
  }

  lemma NotePlaces(s: R.Server, user: nat, fp: Name, q: Tag)
    requires user < |s.users|
    ensures MailOf(q, R.NoteContact(s, user, fp)) == MailOf(q, s)
  {
    SumUpdate(s.users, user, R.NoteContact(s, user, fp).users[user], OfUser(q));
  }

  lemma DispatchPlaces(s: R.Server, i: nat, f: Frame, q: Tag)
    requires R.InRange(s) && i < |s.sessions|
    ensures MailOf(q, R.Dispatch(s, i, f)) <= MailOf(q, s) + OfFrame(q)(f)
  {
    var user, accepted := s.sessions[i].user, R.Accept(s, i, f);
    match R.GetUser(s, f.receiver)
    case None => ErrorPlaces(accepted, user, ReceiverUnknown, f.id, q);
    case Some(to) =>
      var noted := R.NoteContact(accepted, user, f.receiver);
      var posted := R.PostTo(noted, to, R.SessionMessage(Some(user), to, f));
      NotePlaces(accepted, user, f.receiver, q);
      PostPlaces(noted, to, R.SessionMessage(Some(user), to, f), q);
      ErrorPlaces(posted, user, MessageNotDelivered, f.id, q);
  }

  /** The server stores a frame it takes once, if at all. */
  lemma ReceivePlaces(s: R.Server, i: nat, f: Frame, q: Tag)
    requires R.InRange(s) && i < |s.sessions|
    ensures MailOf(q, R.Receive(s, i, R.Parsed(f))) <= MailOf(q, s) + OfFrame(q)(f)
  {
    var user := s.sessions[i].user;
    if f.sender != s.users[user].fp {
      ErrorPlaces(s, user, VerifyError, f.id, q);
    } else {
      DispatchPlaces(s, i, f, q);
    }
  }

  /** What the server writes has left its mailbox. */
  lemma SendPlaces(s: R.Server, i: nat, q: Tag)
    requires R.InRange(s) && i < |s.sessions|
    ensures MailOf(q, R.Send(s, i)) + SentPlaces(q, R.Written(s, i)) <= MailOf(q, s)
  {
    var user := s.sessions[i].user;
    var u := s.users[user];
    if u.mailbox != [] {
      SumUpdate(s.users, user, u.(mailbox := u.mailbox[1..]), OfUser(q));
      SumHead(u.mailbox, OfMail(q));
    }
  }

  lemma {:induction false} SameMailPlaces(us: seq<R.User>, vs: seq<R.User>, q: Tag)
    requires forall u | 0 <= u < |vs| :: vs[u].mailbox == if u < |us| then us[u].mailbox else []
    requires |us| <= |vs|
    ensures Sum(vs, OfUser(q)) == Sum(us, OfUser(q))
    decreases |vs|
  {
    if vs != [] {
      var n := |vs| - 1;
      if |us| == |vs| {
        SameMailPlaces(us[..n], vs[..n], q);
      } else {
        SameMailPlaces(us, vs[..n], q);
      }
    }
  }

  lemma QuietPlaces(s: R.Server, step: R.Step, q: Tag)
    requires R.InRange(s) && L.Quiet(step)
    ensures MailOf(q, R.Next(s, step)) == MailOf(q, s)
  {
    var r := R.Next(s, step);
    L.QuietFrame(s, step);
    forall u | 0 <= u < |r.users| ensures r.users[u].mailbox == if u < |s.users| then s.users[u].mailbox else [] {
      assert L.Mail(r, u) == L.Mail(s, u);
    }
    SameMailPlaces(s.users, r.users, q);
  }

  // ---- the steps of the world ----

  /** The step makes no more places than messages. */
  ghost predicate NoNewPlace(q: Tag, w: World, w': World) {
    Places(q, w') + MadeBy(q, w.clients) <= Places(q, w) + MadeBy(q, w'.clients)
  }

  lemma ClientChangePlaces(q: Tag, cs: Clients, fp: Name, d: S.Client, sent: Option<Frame>)
    requires fp in cs && StepPlaces(cs[fp], d, sent, q)
    requires Sum(d.sessions, OfSession(q)) == Sum(cs[fp].sessions, OfSession(q))
    requires sent.Some? ==> sent.value.sender == fp
    ensures
      var ds := cs[fp := d];
      && HeldOf(q, ds) == HeldOf(q, cs)
      && TasksOf(q, ds) + SentPlaces(q, sent) + MadeBy(q, cs) <= TasksOf(q, cs) + MadeBy(q, ds)
  {
  }

  lemma LocalPlaces(q: Tag, w: World, fp: Name, action: S.Action)
    requires Invariant(w) && fp in w.clients && !action.Arrive?
    ensures
      var e := S.Act(w.clients[fp], action);
      var ds := w.clients[fp := e.client];
      && HeldOf(q, ds) == HeldOf(q, w.clients)
      && TasksOf(q, ds) + SentPlaces(q, e.sent) + MadeBy(q, w.clients) <= TasksOf(q, w.clients) + MadeBy(q, ds)
  {
    var e := S.Act(w.clients[fp], action);
    assert ClientTruthful(w.clients, fp);
    LocalStepTruthful(w.clients, fp, action);
    ActPlaces(w.clients[fp], q, action);
    ActHolds(w.clients[fp], q, action);
    ClientChangePlaces(q, w.clients, fp, e.client, e.sent);
  }

  lemma ClientStepPlaces(q: Tag, w: World, fp: Name, action: S.Action, link: nat)
    requires Invariant(w)
    ensures NoNewPlace(q, w, ClientStep(w, fp, action, link))
  {
    if fp in w.clients && !action.Arrive? {
      var e := S.Act(w.clients[fp], action);
      LocalPlaces(q, w, fp, action);
      if e.sent.Some? && link < |w.links| && w.links[link].owner == fp {
        PutUp(w.links, link, e.sent.value, q);
      }
    }
  }

  lemma HandOverPlaces(q: Tag, cs: Clients, fp: Name, f: Frame)
    requires fp in cs && f.receiver == fp
    ensures
      var ds := cs[fp := S.Handle(cs[fp], f)];
      && TasksOf(q, ds) == TasksOf(q, cs) && MadeBy(q, ds) == MadeBy(q, cs)
      && HeldOf(q, ds) <= HeldOf(q, cs) + OfFrame(q)(f)
  {
    HandlePlaces(cs[fp], f, q);
  }

  lemma DeliverStepPlaces(q: Tag, w: World, link: nat)
    requires Invariant(w)
    ensures NoNewPlace(q, w, DeliverStep(w, link))
  {
    if link < |w.links| && w.links[link].down != [] && w.links[link].owner in w.clients {
      var l := w.links[link];
      assert LinkTruthful(w.clients, l);
      HandOverPlaces(q, w.clients, l.owner, l.down[0]);
      TakeDown(w.links, link, q);
    }
  }

  lemma TakeStepPlaces(q: Tag, w: World, i: nat)
    requires Invariant(w)
    ensures NoNewPlace(q, w, TakeStep(w, i))
  {
    if i < |w.server.sessions| && w.links[w.server.sessions[i].conn].up != [] {
      var link := w.server.sessions[i].conn;
      TakeUp(w.links, link, q);
      ReceivePlaces(w.server, i, w.links[link].up[0], q);
    }
  }

  lemma SendStepPlaces(q: Tag, w: World, i: nat)
    requires Invariant(w)
    ensures NoNewPlace(q, w, SendStep(w, i))
  {
    if i < |w.server.sessions| {
      SendPlaces(w.server, i, q);
      if R.Written(w.server, i).Some? {
        PutDown(w.links, w.server.sessions[i].conn, R.Written(w.server, i).value, q);
      }
    }
  }

  lemma LinkEventPlaces(q: Tag, w: World, e: Event)
    requires Invariant(w) && (e.Connect? || e.LoseUp? || e.LoseDown?)
    ensures NoNewPlace(q, w, Next(w, e))
  {
    match e
    case Connect(fp) => NewLinkPlaces(w.links, fp, q);
    case LoseUp(link) => if link < |w.links| { Lose(w.links, link, q); }
    case LoseDown(link) => if link < |w.links| { Lose(w.links, link, q); }
  }

  lemma ServerPlaces(q: Tag, w: World, r: R.Server)
    requires MailOf(q, r) == MailOf(q, w.server)
    ensures NoNewPlace(q, w, w.(server := r))
  {
  }

  lemma InternalPlaces(q: Tag, w: World, step: R.Step)
    requires Invariant(w) && L.Quiet(step)
    ensures NoNewPlace(q, w, w.(server := R.Next(w.server, step)))
  {
    QuietPlaces(w.server, step, q);
    ServerPlaces(q, w, R.Next(w.server, step));
  }

  lemma HandshakePlaces(q: Tag, w: World, claimed: Name, link: nat)
    requires Invariant(w)
    ensures NoNewPlace(q, w, HandshakeStep(w, claimed, link))
  {
    if link < |w.links| {
      InternalPlaces(q, w, R.Handshake(claimed, w.links[link].owner, link));
    }
  }

  /** No step of the world duplicates a message. */
  lemma StepKeepsPlaces(q: Tag, w: World, e: Event)
    requires Invariant(w)
    ensures NoNewPlace(q, w, Next(w, e))
  {
    match e
    case ClientActs(fp, action, link) => ClientStepPlaces(q, w, fp, action, link);
    case HandOver(link) => DeliverStepPlaces(q, w, link);
    case ServerTakes(i) => TakeStepPlaces(q, w, i);
    case ServerSends(i) => SendStepPlaces(q, w, i);
    case ServerInternal(step) => if L.Quiet(step) && !step.Handshake? { InternalPlaces(q, w, step); }
    case ServerHandshake(claimed, link) => HandshakePlaces(q, w, claimed, link);
    case _ => LinkEventPlaces(q, w, e);
  }

  /** In every run a message is in one place at most. */
  lemma {:induction false} AlwaysOnePlace(names: set<Name>, asking: set<Name>, es: seq<Event>, q: Tag)
    ensures Places(q, Run(names, asking, es)) <= MadeBy(q, Run(names, asking, es).clients)
  {
    if es != [] {
      var n := |es| - 1;
      AlwaysInvariant(names, asking, es[..n]);
      AlwaysOnePlace(names, asking, es[..n], q);
      StepKeepsPlaces(q, Run(names, asking, es[..n]), es[n]);
    }
  }

  // ---- what is held was sent ----

  /** A message in a session of `b` is a text of its own, or was archived by its sender for
      `b`, its contact, with this text. */
  ghost predicate MessageAuthentic(cs: Clients, b: Name, m: S.ChatMessage) {
    (m.msgId == -1 && m.sender == b) || EntrySent(cs, m.sender, Entry(m.msgId, b, m.text), b)
  }

  ghost predicate SessionsAuthentic(cs: Clients, b: Name, sessions: seq<S.ChatSession>) {
    forall j, i | 0 <= j < |sessions| && 0 <= i < |sessions[j].messages| ::
      MessageAuthentic(cs, b, sessions[j].messages[i])
  }

  ghost predicate AllAuthentic(cs: Clients) {
    forall b | b in cs :: SessionsAuthentic(cs, b, cs[b].sessions)
  }

  lemma AuthenticStays(cs: Clients, ds: Clients, b: Name, sessions: seq<S.ChatSession>)
    requires ClientsGrow(cs, ds) && SessionsAuthentic(cs, b, sessions)
    ensures SessionsAuthentic(ds, b, sessions)
  {
    forall j, i | 0 <= j < |sessions| && 0 <= i < |sessions[j].messages|
      ensures MessageAuthentic(ds, b, sessions[j].messages[i])
    {
      var m := sessions[j].messages[i];
      if m.msgId != -1 || m.sender != b {
        EntrySentStays(cs, ds, m.sender, Entry(m.msgId, b, m.text), b);
      }
    }
  }

  lemma PushAuthentic(cs: Clients, b: Name, sessions: seq<S.ChatSession>, k: nat, m: S.ChatMessage)
    requires SessionsAuthentic(cs, b, sessions) && k < |sessions| && MessageAuthentic(cs, b, m)
    ensures SessionsAuthentic(cs, b, S.PushMessage(sessions, k, m))
  {
  }

  lemma OpenAuthentic(cs: Clients, b: Name, c: S.Client, user: S.User)
    requires SessionsAuthentic(cs, b, c.sessions)
    ensures SessionsAuthentic(cs, b, S.OpenSession(c, user).sessions)
  {
  }

  lemma {:induction false} DeliverAllAuthentic(cs: Clients, b: Name, c: S.Client, usr: S.User, ms: seq<S.ChatMessage>)
    requires SessionsAuthentic(cs, b, c.sessions) && forall i | 0 <= i < |ms| :: MessageAuthentic(cs, b, ms[i])
    ensures SessionsAuthentic(cs, b, S.DeliverAll(c, usr, ms).sessions)
    decreases |ms|
  {
    if ms != [] {
      var first := S.FirstWith(c.sessions, ms[0].sender, c.me);
      if first.None? {
        OpenAuthentic(cs, b, c, usr);
        PushAuthentic(cs, b, S.OpenSession(c, usr).sessions, |c.sessions|, ms[0]);
      } else {
        PushAuthentic(cs, b, c.sessions, first.value, ms[0]);
      }
      DeliverAllAuthentic(cs, b, S.Deliver(c, usr, ms[0]), usr, ms[1..]);
    }
  }

  lemma {:induction false} ApplyReceiptsAuthentic(cs: Clients, b: Name, c: S.Client, rs: seq<Receipt>)
    requires SessionsAuthentic(cs, b, c.sessions)
    ensures SessionsAuthentic(cs, b, S.ApplyReceipts(c, rs).sessions)
    decreases |rs|
  {
    if rs != [] {
      var r := rs[0];
      if 0 <= r.msgId < |c.archive| && c.archive[r.msgId].Some? && c.archive[r.msgId].value.kind.ContactRequest? {
        OpenAuthentic(cs, b, c, c.archive[r.msgId].value.kind.user);
      }
      ApplyReceiptsAuthentic(cs, b, S.ApplyReceipt(c, r), rs[1..]);
    }
  }

  lemma HandleAuthentic(cs: Clients, c: S.Client, f: Frame)
    requires SessionsAuthentic(cs, f.receiver, c.sessions) && Truthful(cs, f)
    ensures SessionsAuthentic(cs, f.receiver, S.Handle(c, f).sessions)
  {
    match f.body
    case MessagePack(entries) =>
      if f.sender in c.contacts {
        var ms := S.Incoming(f.sender, entries);
        forall i | 0 <= i < |ms| ensures MessageAuthentic(cs, f.receiver, ms[i]) {
          assert EntrySent(cs, f.sender, entries[i], f.receiver);
        }
        DeliverAllAuthentic(cs, f.receiver, S.SendPack(c, S.GenReceipt(ms, Received), f.sender),
                            c.contacts[f.sender], ms);
      }
    case ReceiptPack(rs) => ApplyReceiptsAuthentic(cs, f.receiver, c, rs);
    case _ =>
  }

  lemma LocalAuthentic(cs: Clients, c: S.Client, action: S.Action)
    requires SessionsAuthentic(cs, c.me, c.sessions) && !action.Arrive?
    ensures SessionsAuthentic(cs, c.me, S.Act(c, action).client.sessions)
  {
    match action
    case AskContact(_) =>
    case SayIn(k, text) =>
      if k < |c.sessions| {
        PushAuthentic(cs, c.me, c.sessions, k, S.ChatMessage(-1, c.me, Nobody, text));
      }
    case ResumeAt(k, how) => ResumeAuthentic(cs, c, k, how);
  }

  lemma ResumeAuthentic(cs: Clients, c: S.Client, k: nat, how: S.Resume)
    requires SessionsAuthentic(cs, c.me, c.sessions)
    ensures SessionsAuthentic(cs, c.me, S.ResumeTask(c, k, how).client.sessions)
  {
    if k < |c.tasks| && c.tasks[k].Deciding? && how.Decided? {
      OpenAuthentic(cs, c.me, c, how.user);
    } else {
      C.OtherTasksKeepSessions(c, k, how);
    }
  }

  lemma ChangeAuthentic(cs: Clients, a: Name, d: S.Client)
    requires AllAuthentic(cs) && a in cs && C.Grows(cs[a], d) && SessionsAuthentic(cs, a, d.sessions)
    ensures AllAuthentic(cs[a := d])
  {
    var ds := cs[a := d];
    UpdateGrows(cs, a, d);
    forall b | b in ds ensures SessionsAuthentic(ds, b, ds[b].sessions) {
      AuthenticStays(cs, ds, b, ds[b].sessions);
    }
  }

  lemma ClientStepAuthentic(w: World, fp: Name, action: S.Action, link: nat)
    requires Invariant(w) && AllAuthentic(w.clients)
    ensures AllAuthentic(ClientStep(w, fp, action, link).clients)
  {
    if fp in w.clients && !action.Arrive? {
      assert ClientTruthful(w.clients, fp);
      C.ActGrows(w.clients[fp], action);
      LocalAuthentic(w.clients, w.clients[fp], action);
      ChangeAuthentic(w.clients, fp, S.Act(w.clients[fp], action).client);
    }
  }

  lemma DeliverStepAuthentic(w: World, link: nat)
    requires Invariant(w) && AllAuthentic(w.clients)
    ensures AllAuthentic(DeliverStep(w, link).clients)
  {
    if link < |w.links| && w.links[link].down != [] && w.links[link].owner in w.clients {
      var l := w.links[link];
      var a, f := l.owner, l.down[0];
      assert LinkTruthful(w.clients, l) && ClientTruthful(w.clients, a);
      C.HandleGrows(w.clients[a], f);
      HandleAuthentic(w.clients, w.clients[a], f);
      ChangeAuthentic(w.clients, a, S.Handle(w.clients[a], f));
    }
  }

  lemma StepAuthentic(w: World, e: Event)
    requires Invariant(w) && AllAuthentic(w.clients)
    ensures AllAuthentic(Next(w, e).clients)
  {
    match e
    case ClientActs(fp, action, link) => ClientStepAuthentic(w, fp, action, link);
    case HandOver(link) => DeliverStepAuthentic(w, link);
    case _ => OthersKeepClients(w, e);
  }

  /** What a session holds was said by its owner or sent to it, word for word, in every run. */
  lemma {:induction false} HeldWasSent(names: set<Name>, asking: set<Name>, es: seq<Event>)
    ensures AllAuthentic(Run(names, asking, es).clients)
  {
    if es != [] {
      var n := |es| - 1;
      AlwaysInvariant(names, asking, es[..n]);
      HeldWasSent(names, asking, es[..n]);
      StepAuthentic(Run(names, asking, es[..n]), es[n]);
    }
  }

  // ---- once ----

  /** At this position client `b` holds message `n` of `a`. */
  ghost predicate HeldAt(cs: Clients, b: Name, j: nat, i: nat, a: Name, n: nat) {
    && b in cs && j < |cs[b].sessions| && i < |cs[b].sessions[j].messages|
    && cs[b].sessions[j].messages[i].sender == a && cs[b].sessions[j].messages[i].msgId == n
  }

  ghost predicate NothingHeldTwice(cs: Clients) {
    forall b, j: nat, i: nat, j': nat, i': nat, a, n: nat
      | HeldAt(cs, b, j, i, a, n) && HeldAt(cs, b, j', i', a, n) :: j == j' && i == i'
  }

  lemma HeldIsCounted(cs: Clients, b: Name, j: nat, i: nat, a: Name, n: nat)
    requires HeldAt(cs, b, j, i, a, n)
    ensures OfSession(Tag(a, n, b))(cs[b].sessions[j]) >= 1
  {
    SumMember(cs[b].sessions[j].messages, i, OfMessage(Tag(a, n, b)));
  }

  lemma TwiceIsCounted(cs: Clients, b: Name, j: nat, i: nat, j': nat, i': nat, a: Name, n: nat)
    requires HeldAt(cs, b, j, i, a, n) && HeldAt(cs, b, j', i', a, n)
    requires j < j' || (j == j' && i < i')
    ensures HeldOf(Tag(a, n, b), cs) >= 2
  {
    var q := Tag(a, n, b);
    if j < j' {
      HeldIsCounted(cs, b, j, i, a, n);
      HeldIsCounted(cs, b, j', i', a, n);
      SumTwo(cs[b].sessions, j, j', OfSession(q));
    } else {
      SumTwo(cs[b].sessions[j].messages, i, i', OfMessage(q));
      SumMember(cs[b].sessions, j, OfSession(q));
    }
  }

  /** No client ever holds the same message twice. */
  lemma AtMostOnce(names: set<Name>, asking: set<Name>, es: seq<Event>)
    ensures NothingHeldTwice(Run(names, asking, es).clients)
  {
    var cs := Run(names, asking, es).clients;
    forall b, j: nat, i: nat, j': nat, i': nat, a, n: nat
      | HeldAt(cs, b, j, i, a, n) && HeldAt(cs, b, j', i', a, n)
      ensures j == j' && i == i'
    {
      AlwaysOnePlace(names, asking, es, Tag(a, n, b));
      if j < j' || (j == j' && i < i') {
        TwiceIsCounted(cs, b, j, i, j', i', a, n);
      } else if j' < j || i' < i {
        TwiceIsCounted(cs, b, j', i', j, i, a, n);
      }
    }
  }

  /** Message `n` of `a` is held with this text by `b`, at one position, and by nobody else. */
  ghost predicate HeldExactlyOnce(cs: Clients, a: Name, n: nat, b: Name, text: nat) {
    exists j: nat, i: nat :: b in cs && InSession(cs[b], j, i, a, n, text)
      && forall b', j': nat, i': nat | HeldAt(cs, b', j', i', a, n) :: b' == b && j' == j && i' == i
  }

  lemma OnlyTheReceiver(cs: Clients, a: Name, n: nat, b: Name, j: nat, i: nat)
    requires AllAuthentic(cs) && HeldAt(cs, b, j, i, a, n)
    ensures a in cs && n < |cs[a].archive| && cs[a].archive[n].Some? && cs[a].archive[n].value.receiver == b
  {
    assert MessageAuthentic(cs, b, cs[b].sessions[j].messages[i]);
  }

  /** The receipt of a text means exactly once: a text shown as received is held by the client
      it was addressed to, word for word, once, and by no other client. */
  lemma ReceivedMeansExactlyOnce(names: set<Name>, asking: set<Name>, es: seq<Event>, a: Name, n: nat, m: S.Archived)
    requires ShowsReceived(Run(names, asking, es).clients, a, n, m) && m.kind.Chat?
    ensures HeldExactlyOnce(Run(names, asking, es).clients, a, n, m.receiver, m.text)
  {
    var cs := Run(names, asking, es).clients;
    NoFalseReceipt(names, asking, es);
    AtMostOnce(names, asking, es);
    HeldWasSent(names, asking, es);
    HeldOnceByReceiver(cs, a, n, m);
  }

  lemma HeldOnceByReceiver(cs: Clients, a: Name, n: nat, m: S.Archived)
    requires ShowsReceived(cs, a, n, m) && m.kind.Chat? && Arrived(cs, a, n, m)
    requires NothingHeldTwice(cs) && AllAuthentic(cs)
    ensures HeldExactlyOnce(cs, a, n, m.receiver, m.text)
  {
    var j: nat, i: nat :| InSession(cs[m.receiver], j, i, a, n, m.text);
    assert HeldAt(cs, m.receiver, j, i, a, n);
    forall b', j': nat, i': nat | HeldAt(cs, b', j', i', a, n) ensures b' == m.receiver && j' == j && i' == i {
      OnlyTheReceiver(cs, a, n, b', j', i');
    }
  }
}
