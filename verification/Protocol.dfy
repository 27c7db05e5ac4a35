/**
  Clients, connections and server together. Clients follow their code, one incarnation for
  each fingerprint; connections may lose everything in flight; the server drops whatever
  its mailboxes, its cache and its checks drop. The result is end to end: a message shown
  as received was received by the client it was addressed to.
*/
module Protocol {
  import opened Basics
  import opened Frames
  import opened ChatClient
  import C = ClientLaws
  import R = Relay
  import L = RelayLaws

  /** A connection of one client: frames on their way to the server and back. */
  datatype Link = Link(owner: Name, up: seq<Frame>, down: seq<Frame>)

  datatype World = World(clients: map<Name, Client>, links: seq<Link>, server: R.Server)

  datatype Event =
    | ClientActs(fp: Name, action: Action, link: nat)
    | Connect(fp: Name)
    | HandOver(link: nat)
    | LoseUp(link: nat)
    | LoseDown(link: nat)
    | ServerTakes(session: nat)
    | ServerSends(session: nat)
    | ServerInternal(step: R.Step)
    | ServerHandshake(claimed: Name, link: nat)

  function Initial(names: set<Name>, asking: set<Name>): World {
    World(map fp | fp in names :: ChatClient.Initial(fp, fp in asking), [], R.Initial())
  }

  /** A local step of a client. A frame it sends goes out on a connection of its own. */
  function ClientStep(w: World, fp: Name, action: Action, link: nat): World {
    if fp !in w.clients || action.Arrive? then w
    else
      var e := Act(w.clients[fp], action);
      var w' := w.(clients := w.clients[fp := e.client]);
      if e.sent.Some? && link < |w.links| && w.links[link].owner == fp then
        w'.(links := w.links[link := w.links[link].(up := w.links[link].up + [e.sent.value])])
      else w'
  }

  /** The client at the end of a connection handles the next frame. */
  function DeliverStep(w: World, link: nat): World {
    if link >= |w.links| || w.links[link].down == [] || w.links[link].owner !in w.clients then w
    else
      var l := w.links[link];
      w.(clients := w.clients[l.owner := Handle(w.clients[l.owner], l.down[0])],
         links := w.links[link := l.(down := l.down[1..])])
  }

  function TakeStep(w: World, i: nat): World
    requires R.InRange(w.server)
  {
    if i >= |w.server.sessions| || w.server.sessions[i].conn >= |w.links| then w
    else
      var link := w.server.sessions[i].conn;
      var l := w.links[link];
      if l.up == [] then w
      else w.(links := w.links[link := l.(up := l.up[1..])], server := R.Receive(w.server, i, R.Parsed(l.up[0])))
  }

  function SendStep(w: World, i: nat): World
    requires R.InRange(w.server)
  {
    if i >= |w.server.sessions| || w.server.sessions[i].conn >= |w.links| then w
    else
      var link := w.server.sessions[i].conn;
      var l := w.links[link];
      var out := R.Written(w.server, i);
      w.(links := if out.Some? then w.links[link := l.(down := l.down + [out.value])] else w.links,
         server := R.Send(w.server, i))
  }

  /** Signing a handshake takes the key of the connection's owner. */
  function HandshakeStep(w: World, claimed: Name, link: nat): World
    requires R.InRange(w.server)
  {
    if link < |w.links| then w.(server := R.HandshakeStep(w.server, claimed, w.links[link].owner, link)) else w
  }

  function Next(w: World, e: Event): (w': World)
    requires R.InRange(w.server)
    ensures R.InRange(w'.server)
  {
    match e
    case ClientActs(fp, action, link) => ClientStep(w, fp, action, link)
    case Connect(fp) => if fp in w.clients then w.(links := w.links + [Link(fp, [], [])]) else w
    case HandOver(link) => DeliverStep(w, link)
    case LoseUp(link) => if link < |w.links| then w.(links := w.links[link := w.links[link].(up := [])]) else w
    case LoseDown(link) => if link < |w.links| then w.(links := w.links[link := w.links[link].(down := [])]) else w
    case ServerTakes(i) => TakeStep(w, i)
    case ServerSends(i) => SendStep(w, i)
    case ServerInternal(step) => if L.Quiet(step) && !step.Handshake? then w.(server := R.Next(w.server, step)) else w
    case ServerHandshake(claimed, link) => HandshakeStep(w, claimed, link)
  }

  function Run(names: set<Name>, asking: set<Name>, es: seq<Event>): (w: World)
    ensures R.InRange(w.server)
  {
    if es == [] then Initial(names, asking) else Next(Run(names, asking, es[..|es| - 1]), es[|es| - 1])
  }

  // ---- what a frame says about the clients ----

  type Clients = map<Name, Client>

  /** If `b` is a client at all, it has `a` as a contact. */
  ghost predicate Knows(cs: Clients, b: Name, a: Name) {
    b in cs ==> a in cs[b].contacts
  }

  /** Client `a` archived its message `n` for `b`, a contact of its own. */
  ghost predicate SentTo(cs: Clients, a: Name, n: int, b: Name) {
    && a in cs && 0 < n < |cs[a].archive| && cs[a].archive[n].Some?
    && cs[a].archive[n].value.receiver == b && b in cs[a].contacts
  }

  /** The entry of a pack is such a message, with the text that was archived. */
  ghost predicate EntrySent(cs: Clients, a: Name, e: Entry, b: Name) {
    SentTo(cs, a, e.msgId, b) && cs[a].archive[e.msgId].value.text == e.text
  }

  ghost predicate InSession(c: Client, j: nat, i: nat, a: Name, n: int, text: nat) {
    && j < |c.sessions| && i < |c.sessions[j].messages|
    && c.sessions[j].messages[i].sender == a && c.sessions[j].messages[i].msgId == n
    && c.sessions[j].messages[i].text == text
  }

  /** A session of the client holds message `n` of sender `a`, with this text. */
  ghost predicate Holds(c: Client, a: Name, n: int, text: nat) {
    exists j: nat, i: nat :: InSession(c, j, i, a, n, text)
  }

  /** Message `n` of `a`, archived as `m`, has arrived: its receiver has `a` as a contact, and
      unless it was a contact request a session of the receiver holds it. */
  ghost predicate Arrived(cs: Clients, a: Name, n: int, m: Archived) {
    m.receiver in cs && a in cs[m.receiver].contacts && (m.kind.Chat? ==> Holds(cs[m.receiver], a, n, m.text))
  }

  /** A "received" of `b` about message `n` is owed to `a`. */
  ghost predicate ReceiptTrue(cs: Clients, b: Name, a: Name, n: int) {
    SentTo(cs, a, n, b) && Arrived(cs, a, n, cs[a].archive[n].value)
  }

  ghost predicate Truthful(cs: Clients, f: Frame) {
    match f.body
    case MessagePack(es) => forall i | 0 <= i < |es| :: EntrySent(cs, f.sender, es[i], f.receiver)
    case ReceiptPack(rs) =>
      forall i | 0 <= i < |rs| :: rs[i].state == Received ==> ReceiptTrue(cs, f.sender, f.receiver, rs[i].msgId)
    case _ => true
  }

  /** A message of an unknown sender: it can only be a contact request. */
  ghost predicate RequestFrom(cs: Clients, sender: Name, n: int, me: Name) {
    SentTo(cs, sender, n, me) && cs[sender].archive[n].value.kind.ContactRequest?
  }

  ghost predicate SaidIn(c: Client, j: nat, i: nat, recipients: seq<Name>, text: nat) {
    && j < |c.sessions| && i < |c.sessions[j].messages|
    && c.sessions[j].messages[i] == ChatMessage(-1, c.me, Nobody, text) && recipients == Others(c.sessions[j].users)
  }

  /** The client shows this text in a session that has these other members. */
  ghost predicate Said(c: Client, recipients: seq<Name>, text: nat) {
    exists j: nat, i: nat :: SaidIn(c, j, i, recipients, text)
  }

  ghost predicate TaskTruthful(cs: Clients, me: Name, t: Task) {
    match t
    case SendTimer(recipients, text) =>
      && (forall i | 0 <= i < |recipients| :: Knows(cs, recipients[i], me))
      && me in cs && Said(cs[me], recipients, text)
    case Encrypting(n) =>
      && me in cs && n < |cs[me].archive| && cs[me].archive[n].Some?
      && cs[me].archive[n].value.receiver in cs[me].contacts
    case Signing(f) => f.sender == me && Truthful(cs, f)
    case Deciding(sender, ms) =>
      Knows(cs, sender, me) && forall i | 0 <= i < |ms| :: RequestFrom(cs, sender, ms[i].msgId, me)
    case RequestEncrypted(_) => true
  }

  // ---- the invariant ----

  /** The members of a session know each other. */
  ghost predicate SessionMutual(cs: Clients, me: Name, s: ChatSession) {
    forall i | 0 <= i < |s.users| && s.users[i].Peer? :: Knows(cs, s.users[i].user.fp, me)
  }

  /** What the property, and more, says about one archived message. */
  ghost predicate EntryTruthful(cs: Clients, a: Name, n: nat)
    requires a in cs && n < |cs[a].archive|
  {
    var m := cs[a].archive[n];
    m.Some? ==>
      && (match m.value.kind
          case Chat => Knows(cs, m.value.receiver, a)
          case ContactRequest(user) => m.value.receiver == user.fp)
      && (m.value.state == Some(Received) ==> Arrived(cs, a, n, m.value))
  }

  ghost predicate ClientTruthful(cs: Clients, a: Name)
    requires a in cs
  {
    var c := cs[a];
    && c.me == a && C.Sound(c)
    && (forall k | 0 <= k < |c.tasks| :: TaskTruthful(cs, a, c.tasks[k]))
    && (forall n | 0 <= n < |c.archive| :: EntryTruthful(cs, a, n))
    && (forall j | 0 <= j < |c.sessions| :: SessionMutual(cs, a, c.sessions[j]))
  }

  ghost predicate LinkTruthful(cs: Clients, l: Link) {
    && l.owner in cs
    && (forall i | 0 <= i < |l.up| :: l.up[i].sender == l.owner && Truthful(cs, l.up[i]))
    && (forall i | 0 <= i < |l.down| :: l.down[i].receiver == l.owner && Truthful(cs, l.down[i]))
  }

  ghost predicate MailTruthful(cs: Clients, s: R.Server) {
    forall u: nat, i | 0 <= i < |L.Mail(s, u)| && L.Mail(s, u)[i].sender.Some? :: Truthful(cs, L.Mail(s, u)[i].msg)
  }

  /** A session talks over a connection of the client whose key signed its handshake. */
  ghost predicate SessionsBound(s: R.Server, links: seq<Link>) {
    forall i | 0 <= i < |s.sessions| :: s.sessions[i].conn < |links|
        && links[s.sessions[i].conn].owner == s.sessions[i].signer
  }

  ghost predicate ServerSound(cs: Clients, s: R.Server, links: seq<Link>) {
    L.KeyIntegrity(s) && L.AllAuthentic(s) && MailTruthful(cs, s) && SessionsBound(s, links)
  }

  ghost predicate Invariant(w: World) {
    && (forall a | a in w.clients :: ClientTruthful(w.clients, a))
    && (forall i | 0 <= i < |w.links| :: LinkTruthful(w.clients, w.links[i]))
    && ServerSound(w.clients, w.server, w.links)
  }

  // ---- truth is not taken back ----

  ghost predicate ClientsGrow(cs: Clients, ds: Clients) {
    cs.Keys == ds.Keys && forall a | a in cs :: C.Grows(cs[a], ds[a])
  }

  lemma KindStays(cs: Clients, ds: Clients, a: Name, n: int)
    requires ClientsGrow(cs, ds) && a in cs && 0 <= n < |cs[a].archive| && cs[a].archive[n].Some?
    ensures n < |ds[a].archive| && ds[a].archive[n].Some?
    ensures ds[a].archive[n].value.kind == cs[a].archive[n].value.kind
    ensures ds[a].archive[n].value.receiver == cs[a].archive[n].value.receiver
    ensures ds[a].archive[n].value.text == cs[a].archive[n].value.text
  {
    assert ds[a].archive[n].value.(state := None) == cs[a].archive[n].value.(state := None);
  }

  lemma SentStays(cs: Clients, ds: Clients, a: Name, n: int, b: Name)
    requires ClientsGrow(cs, ds) && SentTo(cs, a, n, b)
    ensures SentTo(ds, a, n, b)
  {
    KindStays(cs, ds, a, n);
  }

  lemma EntrySentStays(cs: Clients, ds: Clients, a: Name, e: Entry, b: Name)
    requires ClientsGrow(cs, ds) && EntrySent(cs, a, e, b)
    ensures EntrySent(ds, a, e, b)
  {
    KindStays(cs, ds, a, e.msgId);
  }

  lemma HoldsStays(c: Client, d: Client, a: Name, n: int, text: nat)
    requires C.SessionsExtend(c.sessions, d.sessions) && Holds(c, a, n, text)
    ensures Holds(d, a, n, text)
  {
    var j: nat, i: nat :| InSession(c, j, i, a, n, text);
    assert c.sessions[j].messages <= d.sessions[j].messages;
    assert InSession(d, j, i, a, n, text);
  }

  lemma ArrivedStays(cs: Clients, ds: Clients, a: Name, n: int, m: Archived)
    requires ClientsGrow(cs, ds) && Arrived(cs, a, n, m)
    ensures Arrived(ds, a, n, m)
  {
    if m.kind.Chat? {
      HoldsStays(cs[m.receiver], ds[m.receiver], a, n, m.text);
    }
  }

  lemma ReceiptStays(cs: Clients, ds: Clients, b: Name, a: Name, n: int)
    requires ClientsGrow(cs, ds) && ReceiptTrue(cs, b, a, n)
    ensures ReceiptTrue(ds, b, a, n)
  {
    KindStays(cs, ds, a, n);
    ArrivedStays(cs, ds, a, n, cs[a].archive[n].value);
  }

  lemma TruthStays(cs: Clients, ds: Clients, f: Frame)
    requires ClientsGrow(cs, ds) && Truthful(cs, f)
    ensures Truthful(ds, f)
  {
    match f.body
    case MessagePack(es) =>
      forall i | 0 <= i < |es| ensures EntrySent(ds, f.sender, es[i], f.receiver) {
        EntrySentStays(cs, ds, f.sender, es[i], f.receiver);
      }
    case ReceiptPack(rs) =>
      forall i | 0 <= i < |rs| && rs[i].state == Received ensures ReceiptTrue(ds, f.sender, f.receiver, rs[i].msgId) {
        ReceiptStays(cs, ds, f.sender, f.receiver, rs[i].msgId);
      }
    case _ =>
  }

  lemma SaidStays(c: Client, d: Client, recipients: seq<Name>, text: nat)
    requires C.Grows(c, d) && Said(c, recipients, text)
    ensures Said(d, recipients, text)
  {
    var j: nat, i: nat :| SaidIn(c, j, i, recipients, text);
    assert c.sessions[j].messages <= d.sessions[j].messages;
    assert SaidIn(d, j, i, recipients, text);
  }

  lemma TaskStays(cs: Clients, ds: Clients, me: Name, t: Task)
    requires ClientsGrow(cs, ds) && TaskTruthful(cs, me, t)
    ensures TaskTruthful(ds, me, t)
  {
    match t
    case SendTimer(recipients, text) => SaidStays(cs[me], ds[me], recipients, text);
    case Encrypting(n) => KindStays(cs, ds, me, n);
    case Signing(f) => TruthStays(cs, ds, f);
    case Deciding(sender, ms) =>
      forall i | 0 <= i < |ms| ensures RequestFrom(ds, sender, ms[i].msgId, me) {
        assert RequestFrom(cs, sender, ms[i].msgId, me);
        KindStays(cs, ds, sender, ms[i].msgId);
      }
    case RequestEncrypted(_) =>
  }

  lemma EntryStays(cs: Clients, ds: Clients, a: Name, n: nat)
    requires ClientsGrow(cs, ds) && a in cs && n < |cs[a].archive| && EntryTruthful(cs, a, n)
    requires ds[a].archive[n] == cs[a].archive[n]
    ensures EntryTruthful(ds, a, n)
  {
    var m := cs[a].archive[n];
    if m.Some? && m.value.state == Some(Received) {
      ArrivedStays(cs, ds, a, n, m.value);
    }
  }

  lemma LinkStays(cs: Clients, ds: Clients, l: Link)
    requires ClientsGrow(cs, ds) && LinkTruthful(cs, l)
    ensures LinkTruthful(ds, l)
  {
    forall i | 0 <= i < |l.up| ensures Truthful(ds, l.up[i]) {
      TruthStays(cs, ds, l.up[i]);
    }
    forall i | 0 <= i < |l.down| ensures Truthful(ds, l.down[i]) {
      TruthStays(cs, ds, l.down[i]);
    }
  }

  lemma MailStays(cs: Clients, ds: Clients, s: R.Server)
    requires ClientsGrow(cs, ds) && MailTruthful(cs, s)
    ensures MailTruthful(ds, s)
  {
    forall u: nat, i | 0 <= i < |L.Mail(s, u)| && L.Mail(s, u)[i].sender.Some?
        ensures Truthful(ds, L.Mail(s, u)[i].msg) {
      TruthStays(cs, ds, L.Mail(s, u)[i].msg);
    }
  }

  /** One client changes: everybody else's claims still hold. */
  lemma OthersStay(cs: Clients, ds: Clients, a: Name)
    requires ClientsGrow(cs, ds) && a in cs && ClientTruthful(cs, a) && ds[a] == cs[a]
    ensures ClientTruthful(ds, a)
  {
    var c := cs[a];
    forall k | 0 <= k < |c.tasks| ensures TaskTruthful(ds, a, c.tasks[k]) {
      TaskStays(cs, ds, a, c.tasks[k]);
    }
    forall n | 0 <= n < |c.archive| ensures EntryTruthful(ds, a, n) {
      EntryStays(cs, ds, a, n);
    }
    forall j | 0 <= j < |c.sessions| ensures SessionMutual(ds, a, c.sessions[j]) {
      assert SessionMutual(cs, a, c.sessions[j]);
    }
  }

  // ---- one client's step ----

  lemma UpdateGrows(cs: Clients, a: Name, d: Client)
    requires a in cs && C.Grows(cs[a], d)
    ensures ClientsGrow(cs, cs[a := d])
  {
  }

  /** What has to be shown of a changed client: its new tasks, its new or changed archive
      entries and its new sessions. */
  ghost predicate NewsTruthful(cs: Clients, ds: Clients, a: Name)
    requires a in cs && a in ds
  {
    var c, d := cs[a], ds[a];
    && (forall k | 0 <= k < |d.tasks| :: d.tasks[k] in c.tasks || TaskTruthful(ds, a, d.tasks[k]))
    && (forall n | 0 <= n < |d.archive| :: (n < |c.archive| && d.archive[n] == c.archive[n]) || EntryTruthful(ds, a, n))
    && (forall j | 0 <= j < |d.sessions| :: j < |c.sessions| || SessionMutual(ds, a, d.sessions[j]))
  }

  lemma NewsSuffice(cs: Clients, ds: Clients, a: Name)
    requires ClientsGrow(cs, ds) && a in cs && ClientTruthful(cs, a)
    requires C.Sound(ds[a]) && NewsTruthful(cs, ds, a)
    ensures ClientTruthful(ds, a)
  {
    var c, d := cs[a], ds[a];
    forall k | 0 <= k < |d.tasks| ensures TaskTruthful(ds, a, d.tasks[k]) {
      if d.tasks[k] in c.tasks {
        var k' :| 0 <= k' < |c.tasks| && c.tasks[k'] == d.tasks[k];
        TaskStays(cs, ds, a, c.tasks[k']);
      }
    }
    forall n | 0 <= n < |d.archive| ensures EntryTruthful(ds, a, n) {
      if n < |c.archive| && d.archive[n] == c.archive[n] {
        EntryStays(cs, ds, a, n);
      }
    }
    forall j | 0 <= j < |d.sessions| ensures SessionMutual(ds, a, d.sessions[j]) {
      if j < |c.sessions| {
        assert SessionMutual(cs, a, c.sessions[j]);
        assert d.sessions[j].users == c.sessions[j].users;
      }
    }
  }

  lemma DropTasks(c: Client, k: nat)
    requires k < |c.tasks|
    ensures forall i | 0 <= i < |Drop(c, k).tasks| :: Drop(c, k).tasks[i] in c.tasks
  {
  }

  lemma {:induction false} OthersMembers(users: seq<Member>)
    ensures forall r | r in Others(users) :: exists i :: 0 <= i < |users| && users[i].Peer? && users[i].user.fp == r
  {
    if users != [] {
      OthersMembers(users[1..]);
      forall r | r in Others(users) ensures exists i :: 0 <= i < |users| && users[i].Peer? && users[i].user.fp == r {
        if r in Others(users[1..]) {
          var i :| 0 <= i < |users| - 1 && users[1..][i].Peer? && users[1..][i].user.fp == r;
          assert users[i + 1].Peer? && users[i + 1].user.fp == r;
        } else {
          assert users[0].Peer? && users[0].user.fp == r;
        }
      }
    }
  }

  /** Local steps that only add a task. */
  lemma AskAndSayNews(cs: Clients, a: Name, action: Action)
    requires a in cs && ClientTruthful(cs, a) && (action.AskContact? || action.SayIn?)
    ensures var d := Act(cs[a], action).client; NewsTruthful(cs, cs[a := d], a)
  {
    var c, d := cs[a], Act(cs[a], action).client;
    var ds := cs[a := d];
    if action.SayIn? && action.session < |c.sessions| {
      var session := c.sessions[action.session];
      assert SessionMutual(cs, a, session);
      OthersMembers(session.users);
      var rs := Others(session.users);
      forall i | 0 <= i < |rs| ensures Knows(ds, rs[i], a) {
        assert rs[i] in rs;
      }
      assert SaidIn(d, action.session, |session.messages|, rs, action.text);
      assert TaskTruthful(ds, a, SendTimer(rs, action.text));
    }
  }

  /** What a batch of sends leaves behind. */
  ghost predicate Batch(c: Client, d: Client, recipients: seq<Name>) {
    && d.contacts == c.contacts && d.sessions == c.sessions && c.archive <= d.archive
    && (forall n | |c.archive| <= n < |d.archive| ::
          d.archive[n].Some? && d.archive[n].value.receiver in recipients && d.archive[n].value.kind.Chat?
              && d.archive[n].value.state.None?)
    && (forall k | 0 <= k < |d.tasks| :: d.tasks[k] in c.tasks || EncryptingFor(d, d.tasks[k]))
  }

  ghost predicate EncryptingFor(d: Client, t: Task) {
    t.Encrypting? && t.index < |d.archive| && d.archive[t.index].Some?
        && d.archive[t.index].value.receiver in d.contacts
  }

  lemma {:induction false} StartSendsBatch(c: Client, recipients: seq<Name>, text: nat)
    ensures Batch(c, StartSends(c, recipients, text), recipients)
    decreases |recipients|
  {
    if recipients != [] {
      var m := StartSend(c, recipients[0], text, Chat);
      var d := StartSends(m, recipients[1..], text);
      StartSendsBatch(m, recipients[1..], text);
      forall n | |c.archive| <= n < |d.archive|
        ensures d.archive[n].Some? && d.archive[n].value.receiver in recipients && d.archive[n].value.kind.Chat?
            && d.archive[n].value.state.None?
      {
        if n == |c.archive| {
          assert d.archive[n] == m.archive[n];
        }
      }
      forall k | 0 <= k < |d.tasks| ensures d.tasks[k] in c.tasks || EncryptingFor(d, d.tasks[k]) {
        if d.tasks[k] in m.tasks && d.tasks[k] !in c.tasks {
          assert d.tasks[k] == Encrypting(|c.archive|);
          assert d.archive[|c.archive|] == m.archive[|c.archive|];
        }
      }
    }
  }

  lemma TimerNews(cs: Clients, a: Name, k: nat, how: Resume)
    requires a in cs && ClientTruthful(cs, a) && k < |cs[a].tasks| && cs[a].tasks[k].SendTimer?
    ensures var d := ResumeTask(cs[a], k, how).client; NewsTruthful(cs, cs[a := d], a)
  {
    var c := cs[a];
    var rs := c.tasks[k].recipients;
    var d := StartSends(Drop(c, k), rs, c.tasks[k].text);
    var ds := cs[a := d];
    assert TaskTruthful(cs, a, c.tasks[k]);
    DropTasks(c, k);
    StartSendsBatch(Drop(c, k), rs, c.tasks[k].text);
    forall n | |c.archive| <= n < |d.archive| ensures EntryTruthful(ds, a, n) {
      var i :| 0 <= i < |rs| && rs[i] == d.archive[n].value.receiver;
      assert Knows(cs, rs[i], a);
    }
  }

  lemma RequestNews(cs: Clients, a: Name, k: nat, how: Resume)
    requires a in cs && ClientTruthful(cs, a) && k < |cs[a].tasks| && cs[a].tasks[k].RequestEncrypted?
    ensures var d := ResumeTask(cs[a], k, how).client; NewsTruthful(cs, cs[a := d], a)
  {
    DropTasks(cs[a], k);
  }

  lemma EncryptingNews(cs: Clients, a: Name, k: nat, how: Resume)
    requires a in cs && ClientTruthful(cs, a) && k < |cs[a].tasks| && cs[a].tasks[k].Encrypting?
    ensures var d := ResumeTask(cs[a], k, how).client; NewsTruthful(cs, cs[a := d], a)
  {
  }

  lemma SigningNews(cs: Clients, a: Name, k: nat, how: Resume)
    requires a in cs && ClientTruthful(cs, a) && k < |cs[a].tasks| && cs[a].tasks[k].Signing?
    ensures var e := ResumeTask(cs[a], k, how);
            NewsTruthful(cs, cs[a := e.client], a)
                && (e.sent.Some? ==> e.sent.value.sender == a && Truthful(cs, e.sent.value))
  {
  }

  /** Accepting a contact request: every message of its pack was a contact request, and the
      sender is a contact from now on. */
  lemma DecidingNews(cs: Clients, a: Name, k: nat, how: Resume)
    requires a in cs && ClientTruthful(cs, a) && k < |cs[a].tasks| && cs[a].tasks[k].Deciding?
    ensures var d := ResumeTask(cs[a], k, how).client; NewsTruthful(cs, cs[a := d], a)
  {
    var c := cs[a];
    var sender, ms := c.tasks[k].sender, c.tasks[k].messages;
    var d := ResumeTask(c, k, how).client;
    var ds := cs[a := d];
    assert TaskTruthful(cs, a, c.tasks[k]);
    DropTasks(c, k);
    C.ResumeGrows(c, k, how);
    UpdateGrows(cs, a, d);
    if how.Decided? && how.user.fp == sender {
      var accepted := c.asksApplication && how.accept;
      var state := if !c.asksApplication then Lost else if !how.accept then Reject else Received;
      var f := Frame(c.packs, a, sender, GenReceipt(ms, state));
      if state == Received {
        RequestsAnswered(cs, ds, a, sender, ms);
      }
      assert TaskTruthful(ds, a, Signing(f));
      assert forall i | 0 <= i < |d.tasks| :: d.tasks[i] in c.tasks || d.tasks[i] == Signing(f);
    }
  }

  lemma RequestsAnswered(cs: Clients, ds: Clients, a: Name, sender: Name, ms: seq<ChatMessage>)
    requires ClientsGrow(cs, ds) && forall i | 0 <= i < |ms| :: RequestFrom(cs, sender, ms[i].msgId, a)
    requires a in ds && sender in ds[a].contacts
    ensures forall i | 0 <= i < |ms| :: ReceiptTrue(ds, a, sender, ms[i].msgId)
  {
    forall i | 0 <= i < |ms| ensures ReceiptTrue(ds, a, sender, ms[i].msgId) {
      assert RequestFrom(cs, sender, ms[i].msgId, a);
      SentStays(cs, ds, sender, ms[i].msgId, a);
      KindStays(cs, ds, sender, ms[i].msgId);
    }
  }

  lemma ResumeNews(cs: Clients, a: Name, k: nat, how: Resume)
    requires a in cs && ClientTruthful(cs, a)
    ensures var e := ResumeTask(cs[a], k, how);
            NewsTruthful(cs, cs[a := e.client], a)
                && (e.sent.Some? ==> e.sent.value.sender == a && Truthful(cs, e.sent.value))
  {
    if k < |cs[a].tasks| {
      match cs[a].tasks[k]
      case RequestEncrypted(_) => RequestNews(cs, a, k, how);
      case SendTimer(_, _) => TimerNews(cs, a, k, how);
      case Encrypting(_) => EncryptingNews(cs, a, k, how);
      case Signing(_) => SigningNews(cs, a, k, how);
      case Deciding(_, _) => DecidingNews(cs, a, k, how);
    }
  }

  // ---- one arriving frame ----

  lemma ReceiptNews(cs: Clients, a: Name, b: Name, r: Receipt)
    requires a in cs && ClientTruthful(cs, a)
    requires r.state == Received ==> ReceiptTrue(cs, b, a, r.msgId)
    ensures var d := ApplyReceipt(cs[a], r); NewsTruthful(cs, cs[a := d], a)
  {
    var c, d := cs[a], ApplyReceipt(cs[a], r);
    var ds := cs[a := d];
    C.ApplyReceiptGrows(c, r);
    UpdateGrows(cs, a, d);
    if 0 <= r.msgId < |c.archive| && c.archive[r.msgId].Some? {
      ReceiptEntry(cs, a, b, r);
      forall j | |c.sessions| <= j < |d.sessions| ensures SessionMutual(ds, a, d.sessions[j]) {
        ReceiptSession(cs, a, b, r);
      }
    }
  }

  lemma ReceiptEntry(cs: Clients, a: Name, b: Name, r: Receipt)
    requires a in cs && ClientTruthful(cs, a) && 0 <= r.msgId < |cs[a].archive|
    requires r.state == Received ==> ReceiptTrue(cs, b, a, r.msgId)
    ensures EntryTruthful(cs[a := ApplyReceipt(cs[a], r)], a, r.msgId)
  {
    var ds := cs[a := ApplyReceipt(cs[a], r)];
    assert EntryTruthful(cs, a, r.msgId);
    if cs[a].archive[r.msgId].Some? {
      C.ApplyReceiptGrows(cs[a], r);
      UpdateGrows(cs, a, ds[a]);
      if r.state == Received {
        ArrivedStays(cs, ds, a, r.msgId, cs[a].archive[r.msgId].value);
      }
    }
  }

  /** A received contact request opens a session with its receiver, who knows the asker. */
  lemma ReceiptSession(cs: Clients, a: Name, b: Name, r: Receipt)
    requires a in cs && ClientTruthful(cs, a)
    requires r.state == Received ==> ReceiptTrue(cs, b, a, r.msgId)
    ensures
      var d := ApplyReceipt(cs[a], r);
      forall j | |cs[a].sessions| <= j < |d.sessions| :: SessionMutual(cs[a := d], a, d.sessions[j])
  {
    var d := ApplyReceipt(cs[a], r);
    if |d.sessions| > |cs[a].sessions| {
      C.ApplyReceiptGrows(cs[a], r);
      assert EntryTruthful(cs, a, r.msgId);
      assert ReceiptTrue(cs, b, a, r.msgId);
    }
  }

  lemma {:induction false} ReceiptsTruthful(cs: Clients, a: Name, b: Name, rs: seq<Receipt>)
    requires a in cs && ClientTruthful(cs, a)
    requires forall i | 0 <= i < |rs| :: rs[i].state == Received ==> ReceiptTrue(cs, b, a, rs[i].msgId)
    ensures ClientTruthful(cs[a := ApplyReceipts(cs[a], rs)], a)
    decreases |rs|
  {
    if rs == [] {
      assert cs[a := cs[a]] == cs;
    } else {
      var d := ApplyReceipt(cs[a], rs[0]);
      var ds := cs[a := d];
      C.ApplyReceiptGrows(cs[a], rs[0]);
      UpdateGrows(cs, a, d);
      ReceiptNews(cs, a, b, rs[0]);
      NewsSuffice(cs, ds, a);
      forall i | 0 <= i < |rs[1..]| && rs[1..][i].state == Received ensures ReceiptTrue(ds, b, a, rs[1..][i].msgId) {
        ReceiptStays(cs, ds, b, a, rs[i + 1].msgId);
      }
      ReceiptsTruthful(ds, a, b, rs[1..]);
      assert ds[a := ApplyReceipts(d, rs[1..])] == cs[a := ApplyReceipts(d, rs[1..])];
    }
  }

  /** A text of a contact never looks like a contact request: its receiver knows its sender. */
  lemma UnknownSenderNews(cs: Clients, a: Name, sender: Name, es: seq<Entry>)
    requires a in cs && sender !in cs[a].contacts && es != []
    requires ClientTruthful(cs, a) && (sender in cs ==> ClientTruthful(cs, sender))
    requires forall i | 0 <= i < |es| :: EntrySent(cs, sender, es[i], a)
    ensures var d := HandleMessages(cs[a], sender, es); NewsTruthful(cs, cs[a := d], a)
  {
    var d := HandleMessages(cs[a], sender, es);
    var ds := cs[a := d];
    var ms := Incoming(sender, es);
    assert EntrySent(cs, sender, es[0], a);
    forall i | 0 <= i < |ms| ensures RequestFrom(ds, sender, ms[i].msgId, a) {
      assert EntrySent(cs, sender, es[i], a);
      assert EntryTruthful(cs, sender, es[i].msgId);
    }
    assert TaskTruthful(ds, a, Deciding(sender, ms));
  }

  /** Delivery touches nothing but sessions, and opens them with the sender only. */
  ghost predicate DeliveredTo(c: Client, d: Client, usr: User) {
    && d.tasks == c.tasks && d.archive == c.archive && d.contacts == c.contacts && |d.sessions| >= |c.sessions|
    && (forall j | 0 <= j < |c.sessions| :: d.sessions[j].users == c.sessions[j].users)
    && (forall j | |c.sessions| <= j < |d.sessions| :: d.sessions[j].users == [Self, Peer(usr)])
  }

  lemma DeliverShape(c: Client, usr: User, m: ChatMessage)
    ensures DeliveredTo(c, Deliver(c, usr, m), usr)
  {
  }

  lemma DeliveredTransitive(c: Client, d: Client, e: Client, usr: User)
    requires DeliveredTo(c, d, usr) && DeliveredTo(d, e, usr)
    ensures DeliveredTo(c, e, usr)
  {
  }

  lemma {:induction false} DeliverAllShape(c: Client, usr: User, ms: seq<ChatMessage>)
    ensures DeliveredTo(c, DeliverAll(c, usr, ms), usr)
    decreases |ms|
  {
    if ms != [] {
      var m := Deliver(c, usr, ms[0]);
      DeliverShape(c, usr, ms[0]);
      DeliverAllShape(m, usr, ms[1..]);
      DeliveredTransitive(c, m, DeliverAll(m, usr, ms[1..]), usr);
    }
  }

  lemma DeliverHolds(c: Client, usr: User, m: ChatMessage)
    ensures Holds(Deliver(c, usr, m), m.sender, m.msgId, m.text)
  {
    var d := Deliver(c, usr, m);
    var k := match FirstWith(c.sessions, m.sender, c.me) case Some(k) => k case None => |c.sessions|;
    var i := |d.sessions[k].messages| - 1;
    assert d.sessions[k].messages[i] == m;
    assert InSession(d, k, i, m.sender, m.msgId, m.text);
  }

  lemma {:induction false} DeliverAllHolds(c: Client, usr: User, ms: seq<ChatMessage>, i: nat)
    requires C.Sound(c) && i < |ms|
    ensures Holds(DeliverAll(c, usr, ms), ms[i].sender, ms[i].msgId, ms[i].text)
    decreases |ms|
  {
    var m := Deliver(c, usr, ms[0]);
    C.DeliverGrows(c, usr, ms[0]);
    if i == 0 {
      DeliverHolds(c, usr, ms[0]);
      C.DeliverAllGrows(m, usr, ms[1..]);
      HoldsStays(m, DeliverAll(m, usr, ms[1..]), ms[0].sender, ms[0].msgId, ms[0].text);
    } else {
      DeliverAllHolds(m, usr, ms[1..], i - 1);
    }
  }

  /** A pack of a known sender: the receipt goes out only with the texts in a session. */
  lemma KnownSenderNews(cs: Clients, a: Name, sender: Name, es: seq<Entry>)
    requires a in cs && sender in cs[a].contacts && ClientTruthful(cs, a)
    requires forall i | 0 <= i < |es| :: EntrySent(cs, sender, es[i], a)
    ensures var d := HandleMessages(cs[a], sender, es); NewsTruthful(cs, cs[a := d], a)
  {
    var c, ms, usr := cs[a], Incoming(sender, es), cs[a].contacts[sender];
    var packed := SendPack(c, GenReceipt(ms, Received), sender);
    var d := DeliverAll(packed, usr, ms);
    var ds := cs[a := d];
    DeliverAllShape(packed, usr, ms);
    KnownSenderReceipt(cs, a, sender, es);
    assert forall k | 0 <= k < |d.tasks| :: d.tasks[k] in c.tasks || d.tasks[k] == packed.tasks[|c.tasks|];
    if es != [] {
      assert EntrySent(cs, sender, es[0], a);
      assert Knows(ds, usr.fp, a);
    }
    forall j | |c.sessions| <= j < |d.sessions| ensures SessionMutual(ds, a, d.sessions[j]) {
      assert es != [];
      assert d.sessions[j].users == [Self, Peer(usr)];
    }
  }

  lemma KnownSenderReceipt(cs: Clients, a: Name, sender: Name, es: seq<Entry>)
    requires a in cs && sender in cs[a].contacts && ClientTruthful(cs, a)
    requires forall i | 0 <= i < |es| :: EntrySent(cs, sender, es[i], a)
    ensures
      var c, ms, usr := cs[a], Incoming(sender, es), cs[a].contacts[sender];
      var packed := SendPack(c, GenReceipt(ms, Received), sender);
      TaskTruthful(cs[a := DeliverAll(packed, usr, ms)], a, packed.tasks[|c.tasks|])
  {
    var c, ms, usr := cs[a], Incoming(sender, es), cs[a].contacts[sender];
    var packed := SendPack(c, GenReceipt(ms, Received), sender);
    var d := DeliverAll(packed, usr, ms);
    var ds := cs[a := d];
    DeliverAllShape(packed, usr, ms);
    C.DeliverAllGrows(packed, usr, ms);
    UpdateGrows(cs, a, d);
    forall i | 0 <= i < |ms| ensures ReceiptTrue(ds, a, sender, ms[i].msgId) {
      assert EntrySent(cs, sender, es[i], a);
      KindStays(cs, ds, sender, es[i].msgId);
      DeliverAllHolds(packed, usr, ms, i);
    }
  }

  lemma ArriveTruthful(cs: Clients, a: Name, f: Frame)
    requires a in cs && ClientTruthful(cs, a) && (f.sender in cs ==> ClientTruthful(cs, f.sender))
    requires f.receiver == a && Truthful(cs, f)
    ensures ClientTruthful(cs[a := Handle(cs[a], f)], a)
  {
    var d := Handle(cs[a], f);
    C.HandleGrows(cs[a], f);
    UpdateGrows(cs, a, d);
    match f.body
    case MessagePack(es) =>
      if f.sender in cs[a].contacts {
        KnownSenderNews(cs, a, f.sender, es);
      } else if es != [] {
        UnknownSenderNews(cs, a, f.sender, es);
      }
      NewsSuffice(cs, cs[a := d], a);
    case ReceiptPack(rs) => ReceiptsTruthful(cs, a, f.sender, rs);
    case _ => assert cs[a := cs[a]] == cs;
  }

  // ---- the server's steps ----

  lemma PostMail(cs: Clients, s: R.Server, to: nat, m: R.SessionMessage)
    requires to < |s.users| && MailTruthful(cs, s) && (m.sender.Some? ==> Truthful(cs, m.msg))
    ensures MailTruthful(cs, R.PostTo(s, to, m))
  {
    var r := R.PostTo(s, to, m);
    forall u: nat, i | 0 <= i < |L.Mail(r, u)| && L.Mail(r, u)[i].sender.Some?
        ensures Truthful(cs, L.Mail(r, u)[i].msg) {
      if i < |L.Mail(s, u)| {
        assert L.Mail(r, u)[i] == L.Mail(s, u)[i];
      }
    }
  }

  lemma ReceiveMail(cs: Clients, s: R.Server, i: nat, f: Frame)
    requires R.InRange(s) && i < |s.sessions| && MailTruthful(cs, s) && Truthful(cs, f)
    ensures MailTruthful(cs, R.Receive(s, i, R.Parsed(f)))
  {
    var user := s.sessions[i].user;
    if f.sender != s.users[user].fp {
      PostMail(cs, s, user, R.ErrorMessage(user, s.users[user].fp, VerifyError, f.id));
    } else {
      DispatchMail(cs, s, i, f);
    }
  }

  lemma SameMail(cs: Clients, s: R.Server, r: R.Server)
    requires MailTruthful(cs, s) && forall u: nat :: L.Mail(r, u) == L.Mail(s, u)
    ensures MailTruthful(cs, r)
  {
  }

  lemma DispatchMail(cs: Clients, s: R.Server, i: nat, f: Frame)
    requires R.InRange(s) && i < |s.sessions| && MailTruthful(cs, s) && Truthful(cs, f)
    ensures MailTruthful(cs, R.Dispatch(s, i, f))
  {
    var user := s.sessions[i].user;
    var accepted := R.Accept(s, i, f);
    SameMail(cs, s, accepted);
    match R.GetUser(s, f.receiver)
    case None => PostMail(cs, accepted, user, R.ErrorMessage(user, s.users[user].fp, ReceiverUnknown, f.id));
    case Some(to) =>
      var noted := R.NoteContact(accepted, user, f.receiver);
      SameMail(cs, accepted, noted);
      var m := R.SessionMessage(Some(user), to, f);
      PostMail(cs, noted, to, m);
      var posted := R.PostTo(noted, to, m);
      PostMail(cs, posted, user, R.ErrorMessage(user, posted.users[user].fp, MessageNotDelivered, f.id));
  }

  lemma SendMail(cs: Clients, s: R.Server, i: nat)
    requires R.InRange(s) && i < |s.sessions| && MailTruthful(cs, s)
    ensures MailTruthful(cs, R.Send(s, i))
  {
    var r, user := R.Send(s, i), s.sessions[i].user;
    forall u: nat, j | 0 <= j < |L.Mail(r, u)| && L.Mail(r, u)[j].sender.Some?
        ensures Truthful(cs, L.Mail(r, u)[j].msg) {
      if L.Mail(r, u) != L.Mail(s, u) {
        assert L.Mail(r, u)[j] == L.Mail(s, u)[j + 1];
      }
    }
  }

  /** What the server writes is a client's frame for the client at the other end. */
  lemma WrittenTruthful(cs: Clients, s: R.Server, links: seq<Link>, i: nat)
    requires ServerSound(cs, s, links) && i < |s.sessions| && R.Written(s, i).Some?
    ensures Truthful(cs, R.Written(s, i).value) && R.Written(s, i).value.receiver == links[s.sessions[i].conn].owner
  {
    var user := s.sessions[i].user;
    var m := L.Mail(s, user)[0];
    assert L.Authentic(s, user, m);
  }

  /** What is said of the server depends only on the owners of the connections. */
  lemma SameOwnersBound(s: R.Server, links: seq<Link>, links': seq<Link>)
    requires SessionsBound(s, links) && |links'| == |links|
    requires forall k | 0 <= k < |links| :: links'[k].owner == links[k].owner
    ensures SessionsBound(s, links')
  {
  }

  lemma ReceiveKeepsServer(cs: Clients, s: R.Server, links: seq<Link>, i: nat, f: Frame)
    requires ServerSound(cs, s, links) && i < |s.sessions| && Truthful(cs, f)
    ensures ServerSound(cs, R.Receive(s, i, R.Parsed(f)), links)
  {
    L.ReceiveFrame(s, i, R.Parsed(f));
    L.SameRegistryKeepsKeys(s, R.Receive(s, i, R.Parsed(f)));
    L.ReceiveKeepsAuthentic(s, i, R.Parsed(f));
    ReceiveMail(cs, s, i, f);
  }

  lemma SendKeepsServer(cs: Clients, s: R.Server, links: seq<Link>, i: nat)
    requires ServerSound(cs, s, links) && i < |s.sessions|
    ensures ServerSound(cs, R.Send(s, i), links)
  {
    L.SameRegistryKeepsKeys(s, R.Send(s, i));
    L.SendKeepsAuthentic(s, i);
    SendMail(cs, s, i);
  }

  /** The server and the contents of one connection have changed. */
  lemma ServerAndLinkKeep(w: World, r: R.Server, link: nat, l: Link)
    requires Invariant(w) && ServerSound(w.clients, r, w.links)
    requires link < |w.links| && l.owner == w.links[link].owner && LinkTruthful(w.clients, l)
    ensures Invariant(w.(server := r, links := w.links[link := l]))
  {
    SameOwnersBound(r, w.links, w.links[link := l]);
  }

  lemma TakeKeeps(w: World, i: nat)
    requires Invariant(w)
    ensures Invariant(TakeStep(w, i))
  {
    if i < |w.server.sessions| && w.links[w.server.sessions[i].conn].up != [] {
      var link := w.server.sessions[i].conn;
      var l := w.links[link];
      assert LinkTruthful(w.clients, l);
      ReceiveKeepsServer(w.clients, w.server, w.links, i, l.up[0]);
      ServerAndLinkKeep(w, R.Receive(w.server, i, R.Parsed(l.up[0])), link, l.(up := l.up[1..]));
    }
  }

  lemma SendKeeps(w: World, i: nat)
    requires Invariant(w)
    ensures Invariant(SendStep(w, i))
  {
    if i < |w.server.sessions| {
      var link := w.server.sessions[i].conn;
      var l := w.links[link];
      assert LinkTruthful(w.clients, l);
      SendKeepsServer(w.clients, w.server, w.links, i);
      if R.Written(w.server, i).Some? {
        WrittenTruthful(w.clients, w.server, w.links, i);
        ServerAndLinkKeep(w, R.Send(w.server, i), link, l.(down := l.down + [R.Written(w.server, i).value]));
      } else {
        ServerChangeKeeps(w, R.Send(w.server, i));
      }
    }
  }

  /** Steps of the server that leave mailboxes alone leave all that is said about them. */
  lemma QuietKeepsServer(cs: Clients, s: R.Server, links: seq<Link>, step: R.Step)
    requires ServerSound(cs, s, links) && L.Quiet(step)
    ensures
      var r := R.Next(s, step);
      L.KeyIntegrity(r) && L.AllAuthentic(r) && MailTruthful(cs, r)
  {
    L.QuietFrame(s, step);
    L.StepKeepsKeys(s, step);
    L.StepKeepsAuthentic(s, step);
    SameMail(cs, s, R.Next(s, step));
  }

  lemma ServerChangeKeeps(w: World, r: R.Server)
    requires Invariant(w) && ServerSound(w.clients, r, w.links)
    ensures Invariant(w.(server := r))
  {
  }

  lemma InternalKeeps(w: World, step: R.Step)
    requires Invariant(w) && L.Quiet(step) && !step.Handshake?
    ensures Invariant(w.(server := R.Next(w.server, step)))
  {
    QuietKeepsServer(w.clients, w.server, w.links, step);
    QuietKeepsBound(w.server, w.links, step);
    ServerChangeKeeps(w, R.Next(w.server, step));
  }

  lemma QuietKeepsBound(s: R.Server, links: seq<Link>, step: R.Step)
    requires R.InRange(s) && SessionsBound(s, links) && L.Quiet(step) && !step.Handshake?
    ensures SessionsBound(R.Next(s, step), links)
  {
  }

  lemma HandshakeKeeps(w: World, claimed: Name, link: nat)
    requires Invariant(w)
    ensures Invariant(HandshakeStep(w, claimed, link))
  {
    if link < |w.links| {
      QuietKeepsServer(w.clients, w.server, w.links, R.Handshake(claimed, w.links[link].owner, link));
      HandshakeKeepsBound(w.server, w.links, claimed, link);
      ServerChangeKeeps(w, R.HandshakeStep(w.server, claimed, w.links[link].owner, link));
    }
  }

  lemma HandshakeKeepsBound(s: R.Server, links: seq<Link>, claimed: Name, link: nat)
    requires R.InRange(s) && SessionsBound(s, links) && link < |links|
    ensures SessionsBound(R.HandshakeStep(s, claimed, links[link].owner, link), links)
  {
  }

  // ---- the clients' steps, in the world ----

  /** A client has changed truthfully; so has one connection, perhaps. */
  lemma ClientChangeKeeps(w: World, a: Name, d: Client, links: seq<Link>)
    requires Invariant(w) && a in w.clients && C.Grows(w.clients[a], d) && ClientTruthful(w.clients[a := d], a)
    requires |links| == |w.links|
    requires forall k | 0 <= k < |links| ::
      links[k].owner == w.links[k].owner && (links[k] == w.links[k] || LinkTruthful(w.clients[a := d], links[k]))
    ensures Invariant(w.(clients := w.clients[a := d], links := links))
  {
    var ds := w.clients[a := d];
    UpdateGrows(w.clients, a, d);
    forall b | b in ds ensures ClientTruthful(ds, b) {
      if b != a {
        OthersStay(w.clients, ds, b);
      }
    }
    forall k | 0 <= k < |links| ensures LinkTruthful(ds, links[k]) {
      if links[k] == w.links[k] {
        LinkStays(w.clients, ds, w.links[k]);
      }
    }
    MailStays(w.clients, ds, w.server);
  }

  /** A local step leaves the client truthful, and so is the frame it sends. */
  lemma LocalStepTruthful(cs: Clients, a: Name, action: Action)
    requires a in cs && ClientTruthful(cs, a) && !action.Arrive?
    ensures
      var e := Act(cs[a], action);
      && ClientTruthful(cs[a := e.client], a)
      && (e.sent.Some? ==> e.sent.value.sender == a && Truthful(cs, e.sent.value))
  {
    var e := Act(cs[a], action);
    var ds := cs[a := e.client];
    C.ActGrows(cs[a], action);
    UpdateGrows(cs, a, e.client);
    if action.ResumeAt? {
      ResumeNews(cs, a, action.k, action.how);
    } else {
      AskAndSayNews(cs, a, action);
    }
    NewsSuffice(cs, ds, a);
  }

  lemma SentOverLink(cs: Clients, l: Link, f: Frame)
    requires LinkTruthful(cs, l) && f.sender == l.owner && Truthful(cs, f)
    ensures LinkTruthful(cs, l.(up := l.up + [f]))
  {
  }

  /** A client has changed truthfully, and sends a truthful frame over its connection. */
  lemma SentKeeps(w: World, a: Name, d: Client, link: nat, f: Frame)
    requires Invariant(w) && a in w.clients && C.Grows(w.clients[a], d) && ClientTruthful(w.clients[a := d], a)
    requires link < |w.links| && w.links[link].owner == a && f.sender == a && Truthful(w.clients, f)
    ensures
      var l := w.links[link];
      Invariant(w.(clients := w.clients[a := d], links := w.links[link := l.(up := l.up + [f])]))
  {
    var cs, ds, l := w.clients, w.clients[a := d], w.links[link];
    UpdateGrows(cs, a, d);
    LinkStays(cs, ds, l);
    TruthStays(cs, ds, f);
    SentOverLink(ds, l, f);
    ClientChangeKeeps(w, a, d, w.links[link := l.(up := l.up + [f])]);
  }

  lemma ClientStepKeeps(w: World, a: Name, action: Action, link: nat)
    requires Invariant(w)
    ensures Invariant(ClientStep(w, a, action, link))
  {
    if a in w.clients && !action.Arrive? {
      var e := Act(w.clients[a], action);
      LocalStepTruthful(w.clients, a, action);
      C.ActGrows(w.clients[a], action);
      if e.sent.Some? && link < |w.links| && w.links[link].owner == a {
        SentKeeps(w, a, e.client, link, e.sent.value);
      } else {
        ClientChangeKeeps(w, a, e.client, w.links);
      }
    }
  }

  /** A client has handled the first frame waiting on its connection. */
  lemma HandledKeeps(w: World, link: nat)
    requires Invariant(w) && link < |w.links| && w.links[link].down != [] && w.links[link].owner in w.clients
    ensures
      var l := w.links[link];
      var ds := w.clients[l.owner := Handle(w.clients[l.owner], l.down[0])];
      ClientTruthful(ds, l.owner) && LinkTruthful(ds, l.(down := l.down[1..]))
  {
    var l := w.links[link];
    var f, a := l.down[0], l.owner;
    assert LinkTruthful(w.clients, l);
    C.HandleGrows(w.clients[a], f);
    UpdateGrows(w.clients, a, Handle(w.clients[a], f));
    ArriveTruthful(w.clients, a, f);
    LinkStays(w.clients, w.clients[a := Handle(w.clients[a], f)], l);
  }

  lemma DeliverStepKeeps(w: World, link: nat)
    requires Invariant(w)
    ensures Invariant(DeliverStep(w, link))
  {
    if link < |w.links| && w.links[link].down != [] && w.links[link].owner in w.clients {
      var l := w.links[link];
      HandledKeeps(w, link);
      C.HandleGrows(w.clients[l.owner], l.down[0]);
      ClientChangeKeeps(w, l.owner, Handle(w.clients[l.owner], l.down[0]), w.links[link := l.(down := l.down[1..])]);
    }
  }

  lemma OthersKeepClients(w: World, e: Event)
    requires R.InRange(w.server) && !e.ClientActs? && !e.HandOver?
    ensures Next(w, e).clients == w.clients
  {
  }

  lemma LinksKeep(w: World, links: seq<Link>)
    requires Invariant(w) && |links| >= |w.links|
    requires forall k | 0 <= k < |w.links| :: links[k].owner == w.links[k].owner
    requires forall k | 0 <= k < |links| :: LinkTruthful(w.clients, links[k])
    ensures Invariant(w.(links := links))
  {
  }

  lemma ConnectKeeps(w: World, fp: Name)
    requires Invariant(w) && fp in w.clients
    ensures Invariant(w.(links := w.links + [Link(fp, [], [])]))
  {
    LinksKeep(w, w.links + [Link(fp, [], [])]);
  }

  lemma LossKeeps(w: World, link: nat, l: Link)
    requires Invariant(w) && link < |w.links| && l.owner == w.links[link].owner
    requires l.up in {[], w.links[link].up} && l.down in {[], w.links[link].down}
    ensures Invariant(w.(links := w.links[link := l]))
  {
    assert LinkTruthful(w.clients, w.links[link]);
    LinksKeep(w, w.links[link := l]);
  }

  lemma LinkEventKeeps(w: World, e: Event)
    requires Invariant(w) && (e.Connect? || e.LoseUp? || e.LoseDown?)
    ensures Invariant(Next(w, e))
  {
    match e
    case Connect(fp) => if fp in w.clients { ConnectKeeps(w, fp); }
    case LoseUp(link) => if link < |w.links| { LossKeeps(w, link, w.links[link].(up := [])); }
    case LoseDown(link) => if link < |w.links| { LossKeeps(w, link, w.links[link].(down := [])); }
  }

  lemma StepKeepsInvariant(w: World, e: Event)
    requires Invariant(w)
    ensures Invariant(Next(w, e))
  {
    match e
    case ClientActs(fp, action, link) => ClientStepKeeps(w, fp, action, link);
    case Connect(_) => LinkEventKeeps(w, e);
    case HandOver(link) => DeliverStepKeeps(w, link);
    case LoseUp(_) => LinkEventKeeps(w, e);
    case LoseDown(_) => LinkEventKeeps(w, e);
    case ServerTakes(i) => TakeKeeps(w, i);
    case ServerSends(i) => SendKeeps(w, i);
    case ServerInternal(step) => if L.Quiet(step) && !step.Handshake? { InternalKeeps(w, step); }
    case ServerHandshake(claimed, link) => HandshakeKeeps(w, claimed, link);
  }

  lemma {:induction false} AlwaysInvariant(names: set<Name>, asking: set<Name>, es: seq<Event>)
    ensures Invariant(Run(names, asking, es))
  {
    if es == [] {
      InitialInvariant(names, asking);
    } else {
      AlwaysInvariant(names, asking, es[..|es| - 1]);
      StepKeepsInvariant(Run(names, asking, es[..|es| - 1]), es[|es| - 1]);
    }
  }

  lemma InitialInvariant(names: set<Name>, asking: set<Name>)
    ensures Invariant(Initial(names, asking))
  {
    assert forall u: nat :: L.Mail(R.Initial(), u) == [];
  }

  /** Client `a` has archived message `m` at `n` and shows it as received. */
  ghost predicate ShowsReceived(cs: Clients, a: Name, n: nat, m: Archived) {
    a in cs && n < |cs[a].archive| && cs[a].archive[n] == Some(m) && m.state == Some(Received)
  }

  /** Whatever message a client shows as received has arrived: its receiver exists, has the
      client as a contact, and, unless the message was a contact request, holds the message
      with its text in one of its sessions. */
  ghost predicate ReceivedMeansArrived(cs: Clients) {
    forall a, n: nat, m | ShowsReceived(cs, a, n, m) :: m.msgId == n && Arrived(cs, a, n, m)
  }

  /** No false receipt, in every run. */
  lemma NoFalseReceipt(names: set<Name>, asking: set<Name>, es: seq<Event>)
    ensures ReceivedMeansArrived(Run(names, asking, es).clients)
  {
    AlwaysInvariant(names, asking, es);
    ReceivedIsTrue(Run(names, asking, es));
  }

  lemma ReceivedIsTrue(w: World)
    requires Invariant(w)
    ensures ReceivedMeansArrived(w.clients)
  {
    var cs := w.clients;
    forall a, n: nat, m | ShowsReceived(cs, a, n, m) ensures m.msgId == n && Arrived(cs, a, n, m) {
      assert ClientTruthful(cs, a) && EntryTruthful(cs, a, n);
    }
  }

  /** Whenever a client is asked about a pack of an unknown sender, every message in it is
      one the sender archived as a contact request to this client. */
  ghost predicate AskedOnlyAboutRequests(cs: Clients) {
    forall b, t | b in cs && t in cs[b].tasks && t.Deciding? ::
      forall i | 0 <= i < |t.messages| :: RequestFrom(cs, t.sender, t.messages[i].msgId, b)
  }

  /** A text is never mistaken for a contact request, in any run. */
  lemma TextsAreNeverRequests(names: set<Name>, asking: set<Name>, es: seq<Event>)
    ensures AskedOnlyAboutRequests(Run(names, asking, es).clients)
  {
    var cs := Run(names, asking, es).clients;
    AlwaysInvariant(names, asking, es);
    forall b, t | b in cs && t in cs[b].tasks && t.Deciding?
      ensures forall i | 0 <= i < |t.messages| :: RequestFrom(cs, t.sender, t.messages[i].msgId, b)
    {
      DecidingIsAboutRequests(cs, b, t);
    }
  }

  lemma DecidingIsAboutRequests(cs: Clients, b: Name, t: Task)
    requires b in cs && ClientTruthful(cs, b) && t in cs[b].tasks && t.Deciding?
    ensures forall i | 0 <= i < |t.messages| :: RequestFrom(cs, t.sender, t.messages[i].msgId, b)
  {
  }
}
