/**
  A run from the very beginning: two clients register, connect and become contacts, and the
  first text is on its way. So the laws of `Protocol` speak of runs in which receipts come,
  and the condition of `Delivery.ReceiptComes` is met.
*/
module FirstMessage {
  import opened Basics
  import opened Frames
  import opened Protocol
  import opened RoundTrip
  import opened Delivery
  import T = RelayTrace
  import CS = CacheSpec
  import S = ChatClient
  import R = Relay

  const LONG := 1000

  // ---- registered and connected ----

  function Start(ann: Name, bob: Name): World {
    Protocol.Initial({ann, bob}, {ann, bob})
  }

  function RegisteredBoth(ann: Name, bob: Name): R.Server {
    var s := R.Initial();
    s.(users := [R.NewUser(ann), R.NewUser(bob)],
       cache := s.cache.(entries := map[ann := CS.Entry(0, LONG), bob := CS.Entry(1, LONG)]))
  }

  /** Both clients as they began, each with a connection and a session of its own. */
  function ConnectedBoth(ann: Name, bob: Name): World {
    Start(ann, bob).(links := [Link(ann, [], []), Link(bob, [], [])],
                     server := RegisteredBoth(ann, bob).(sessions := [R.Session(0, ann, 0), R.Session(1, bob, 1)]))
  }

  lemma LeadsRegister(w0: World, es: seq<Event>, w: World, fp: Name) returns (es': seq<Event>)
    requires Leads(w0, es, w) && w.server.cache.chSet == [] && fp != Nobody && fp !in w.server.cache.entries
    ensures
      var s := w.server;
      var e := CS.Entry(|s.users|, LONG);
      Leads(w0, es', w.(server := s.(users := s.users + [R.NewUser(fp)],
                                     cache := s.cache.(entries := s.cache.entries[fp := e]))))
  {
    var s := w.server;
    var x, y, z := R.TryRegister(fp), R.QueueUser(|s.registering|, LONG), R.CacheSet(0);
    T.RegisterSteps(s, fp, LONG, 0);
    es' := LeadsInternal(w0, es, w, x);
    es' := LeadsInternal(w0, es', w.(server := R.Next(s, x)), y);
    es' := LeadsInternal(w0, es', w.(server := R.Next(R.Next(s, x), y)), z);
  }

  lemma LeadsInternal(w0: World, es: seq<Event>, w: World, x: R.Step) returns (es': seq<Event>)
    requires Leads(w0, es, w) && (x.TryRegister? || x.QueueUser? || x.CacheSet?)
    ensures Leads(w0, es', w.(server := R.Next(w.server, x)))
  {
    LeadsOn(w0, es, w, ServerInternal(x));
    es' := es + [ServerInternal(x)];
  }

  lemma LeadsBothRegistered(ann: Name, bob: Name) returns (es: seq<Event>)
    requires ann != Nobody && bob != Nobody && ann != bob
    ensures Leads(Start(ann, bob), es, Start(ann, bob).(server := RegisteredBoth(ann, bob)))
  {
    var w0 := Start(ann, bob);
    LeadsNowhere(w0);
    es := LeadsRegister(w0, [], w0, ann);
    var s := R.Initial();
    var s1 := s.(users := [R.NewUser(ann)], cache := s.cache.(entries := map[ann := CS.Entry(0, LONG)]));
    assert [] + [R.NewUser(ann)] == [R.NewUser(ann)];
    es := LeadsRegister(w0, es, w0.(server := s1), bob);
    assert [R.NewUser(ann)] + [R.NewUser(bob)] == [R.NewUser(ann), R.NewUser(bob)];
  }

  lemma LeadsConnect(w0: World, es: seq<Event>, w: World, fp: Name)
    requires Leads(w0, es, w) && fp in w.clients
    ensures Leads(w0, es + [Connect(fp)], w.(links := w.links + [Link(fp, [], [])]))
  {
    LeadsOn(w0, es, w, Connect(fp));
  }

  lemma LeadsHandshake(w0: World, es: seq<Event>, w: World, fp: Name, u: nat, link: nat)
    requires Leads(w0, es, w) && link < |w.links| && w.links[link].owner == fp
    requires R.GetUser(w.server, fp) == Some(u) && w.server.users[u].fp == fp
    ensures Leads(w0, es + [ServerHandshake(fp, link)],
                  w.(server := w.server.(sessions := w.server.sessions + [R.Session(u, fp, link)])))
  {
    LeadsOn(w0, es, w, ServerHandshake(fp, link));
  }

  lemma LeadsBothConnected(ann: Name, bob: Name) returns (es: seq<Event>)
    requires ann != Nobody && bob != Nobody && ann != bob
    ensures Leads(Start(ann, bob), es, ConnectedBoth(ann, bob))
  {
    var w0 := Start(ann, bob);
    es := LeadsBothRegistered(ann, bob);
    var w1 := w0.(server := RegisteredBoth(ann, bob));
    LeadsConnect(w0, es, w1, ann);
    es := es + [Connect(ann)];
    var w2 := w1.(links := [] + [Link(ann, [], [])]);
    LeadsConnect(w0, es, w2, bob);
    es := es + [Connect(bob)];
    var w3 := w1.(links := [Link(ann, [], []), Link(bob, [], [])]);
    assert w2.links + [Link(bob, [], [])] == w3.links;
    es := LeadsBothGreeted(w0, es, w3, ann, bob);
  }

  lemma LeadsBothGreeted(w0: World, es: seq<Event>, w: World, ann: Name, bob: Name) returns (es': seq<Event>)
    requires ann != bob && Leads(w0, es, w) && w.server == RegisteredBoth(ann, bob)
    requires w.links == [Link(ann, [], []), Link(bob, [], [])]
    ensures Leads(w0, es', w.(server := w.server.(sessions := [R.Session(0, ann, 0), R.Session(1, bob, 1)])))
  {
    LeadsHandshake(w0, es, w, ann, 0, 0);
    var s1 := w.server.(sessions := [R.Session(0, ann, 0)]);
    assert [] + [R.Session(0, ann, 0)] == [R.Session(0, ann, 0)];
    LeadsHandshake(w0, es + [ServerHandshake(ann, 0)], w.(server := s1), bob, 1, 1);
    assert [R.Session(0, ann, 0)] + [R.Session(1, bob, 1)] == [R.Session(0, ann, 0), R.Session(1, bob, 1)];
    es' := es + [ServerHandshake(ann, 0)] + [ServerHandshake(bob, 1)];
  }

  // ---- what the clients do ----

  /** The clients' keys, by which they know each other. */
  function KeyOf(fp: Name): S.User {
    S.User(fp, 7)
  }

  function FrameWith(c: S.Client, n: nat, to: Name, text: nat): Frame {
    Frame(c.packs, c.me, to, MessagePack([Entry(n, to, text)]))
  }

  /** A new client asks another: the request is archived as its first message. */
  function Asked(ann: Name, bob: Name): S.Client {
    S.Client(ann, map[bob := KeyOf(bob)], [],
             [None, Some(S.Archived(1, bob, 7, S.ContactRequest(KeyOf(bob)), None))], 1, true, [S.Encrypting(1)], [])
  }

  /** The message waiting to be encrypted becomes a frame waiting to be signed. */
  lemma Encrypts(c: S.Client, n: nat, to: Name, text: nat)
    requires c.tasks == [S.Encrypting(n)] && n < |c.archive| && c.archive[n].Some?
    requires var m := c.archive[n].value; m.msgId == n && m.receiver == to && m.text == text
    ensures
      var e := S.ResumeTask(c, 0, S.Continue);
      e.sent == None && e.client == c.(packs := c.packs + 1, tasks := [S.Signing(FrameWith(c, n, to, text))])
  {
  }

  lemma Asks(ann: Name, bob: Name)
    ensures
      var c := S.RequestContact(S.Initial(ann, true), KeyOf(bob));
      S.ResumeTask(c, 0, S.Continue) == S.Effect(Asked(ann, bob), None)
  {
  }

  function Answered(bob: Name, ann: Name): S.Client {
    S.Client(bob, map[ann := KeyOf(ann)], [S.ChatSession([S.Self, S.Peer(KeyOf(ann))], [])], [None], 2, true,
             [S.Signing(Frame(1, bob, ann, ReceiptPack([Receipt(1, Received)])))], [])
  }

  lemma Answers(bob: Name, f: Frame)
    requires f.body == MessagePack([Entry(1, bob, 7)])
    ensures
      var c := S.Handle(S.Initial(bob, true), f);
      S.ResumeTask(c, 0, S.Decided(true, KeyOf(f.sender))) == S.Effect(Answered(bob, f.sender), None)
  {
    var ms := S.Incoming(f.sender, [Entry(1, bob, 7)]);
    assert ms == [S.ChatMessage(1, f.sender, bob, 7)];
    assert S.GenReceipt(ms, Received).receipts == [Receipt(1, Received)];
  }

  /** The request has been received: a session is open. */
  function Friends(ann: Name, bob: Name): S.Client {
    S.Client(ann, map[bob := KeyOf(bob)], [S.ChatSession([S.Self, S.Peer(KeyOf(bob))], [])],
             [None, Some(S.Archived(1, bob, 7, S.ContactRequest(KeyOf(bob)), Some(Received)))], 2, true, [], [])
  }

  lemma Befriends(ann: Name, bob: Name, g: Frame)
    requires g.body == ReceiptPack([Receipt(1, Received)])
    ensures S.Handle(Asked(ann, bob).(packs := 2, tasks := []), g) == Friends(ann, bob)
  {
    OneReceipt(Asked(ann, bob).(packs := 2, tasks := []), Receipt(1, Received));
  }

  /** The first text is archived as the second message. */
  function Texted(ann: Name, bob: Name, text: nat): S.Client {
    Friends(ann, bob).(
      sessions := [S.ChatSession([S.Self, S.Peer(KeyOf(bob))], [S.ChatMessage(-1, ann, Nobody, text)])],
      archive := Friends(ann, bob).archive + [Some(S.Archived(2, bob, text, S.Chat, None))],
      tasks := [S.Encrypting(2)])
  }

  lemma Texts(ann: Name, bob: Name, text: nat)
    ensures
      var c := S.SendText(Friends(ann, bob), 0, text);
      S.ResumeTask(c, 0, S.Continue) == S.Effect(Texted(ann, bob, text), None)
  {
    var users := [S.Self, S.Peer(KeyOf(bob))];
    assert users[1..] == [S.Peer(KeyOf(bob))] && users[1..][1..] == [];
    assert S.Others(users[1..]) == [bob] + S.Others([]);
    assert S.Others(users) == [bob];
    var c := S.SendText(Friends(ann, bob), 0, text);
    assert c.tasks == [S.SendTimer([bob], text)];
    OneRecipient(S.Drop(c, 0), bob, text);
    assert c.sessions[0].messages == [S.ChatMessage(-1, ann, Nobody, text)];
    assert c.sessions[0] == Texted(ann, bob, text).sessions[0];
    assert c.sessions == Texted(ann, bob, text).sessions;
    var d := S.StartSend(S.Drop(c, 0), bob, text, S.Chat);
    assert S.Drop(c, 0).tasks == [] && d.archive == Texted(ann, bob, text).archive;
    assert d.tasks == [S.Encrypting(2)];
  }

  lemma OneRecipient(c: S.Client, to: Name, text: nat)
    ensures S.StartSends(c, [to], text) == S.StartSend(c, to, text, S.Chat)
  {
    assert [to][1..] == [];
    assert S.StartSends(S.StartSend(c, to, text, S.Chat), [], text) == S.StartSend(c, to, text, S.Chat);
  }

  // ---- the clients' steps in the world ----

  /** Session `i` is one client's, session `j` the other's, and nothing is under way. */
  ghost predicate CalmFrom(w: World, i: nat, j: nat, a: Name, b: Name) {
    && Connected(w, i, j) && NothingWaits(w, i, j) && w.clients.Keys == {a, b}
    && FingerprintAt(w.server, i) == a && FingerprintAt(w.server, j) == b
  }

  ghost predicate Calm(w: World, ann: Name, bob: Name) {
    CalmFrom(w, 0, 1, ann, bob)
  }

  lemma CalmTurned(w: World, i: nat, j: nat, a: Name, b: Name)
    requires CalmFrom(w, i, j, a, b)
    ensures CalmFrom(w, j, i, b, a)
  {
  }

  lemma ConnectedIsCalm(ann: Name, bob: Name)
    requires ann != bob
    ensures Calm(ConnectedBoth(ann, bob), ann, bob)
  {
  }

  /** A step of one client that sends nothing. */
  lemma LeadsLocal(w0: World, es: seq<Event>, w: World, ann: Name, bob: Name, fp: Name, x: S.Action)
      returns (es': seq<Event>, w': World)
    requires Leads(w0, es, w) && Calm(w, ann, bob) && fp in {ann, bob}
    requires !x.Arrive? && S.Act(w.clients[fp], x).sent.None?
    ensures Leads(w0, es', w') && Calm(w', ann, bob)
    ensures w' == w.(clients := w.clients[fp := S.Act(w.clients[fp], x).client])
  {
    LeadsOn(w0, es, w, ClientActs(fp, x, 0));
    es' := es + [ClientActs(fp, x, 0)];
    w' := ClientStep(w, fp, x, 0);
  }

  /** One client's only task is to send to the other one. */
  lemma GoesOver(w: World, i: nat, j: nat, a: Name, b: Name, f: Frame)
    requires CalmFrom(w, i, j, a, b) && a != b
    requires w.clients[a].tasks == [S.Signing(f)] && f.sender == a && f.receiver == b
    ensures
      var w' := Convey(w, i, j, 0);
      && CalmFrom(w', i, j, a, b)
      && w'.clients[a] == w.clients[a].(tasks := []) && w'.clients[b] == S.Handle(w.clients[b], f)
  {
    Conveyed(w, i, j, 0, f);
    assert S.Drop(w.clients[a], 0).tasks == [];
  }

  lemma LeadsOver(w0: World, es: seq<Event>, w: World, i: nat, j: nat, a: Name, b: Name, f: Frame)
      returns (es': seq<Event>, w': World)
    requires Leads(w0, es, w) && CalmFrom(w, i, j, a, b) && a != b
    requires w.clients[a].tasks == [S.Signing(f)] && f.sender == a && f.receiver == b
    ensures Leads(w0, es', w') && CalmFrom(w', i, j, a, b)
    ensures w'.clients[a] == w.clients[a].(tasks := []) && w'.clients[b] == S.Handle(w.clients[b], f)
  {
    GoesOver(w, i, j, a, b, f);
    es' := LeadsConvey(w0, es, w, i, j, 0);
    w' := Convey(w, i, j, 0);
  }

  // ---- the run ----

  lemma LeadsAsked(w0: World, es: seq<Event>, w: World, ann: Name, bob: Name) returns (es': seq<Event>, w': World)
    requires Leads(w0, es, w) && Calm(w, ann, bob) && ann != bob
    requires w.clients[ann] == S.Initial(ann, true) && w.clients[bob] == S.Initial(bob, true)
    ensures Leads(w0, es', w') && Calm(w', ann, bob)
    ensures w'.clients[ann] == Asked(ann, bob) && w'.clients[bob] == S.Initial(bob, true)
  {
    Asks(ann, bob);
    es', w' := LeadsLocal(w0, es, w, ann, bob, ann, S.AskContact(KeyOf(bob)));
    es', w' := LeadsLocal(w0, es', w', ann, bob, ann, S.ResumeAt(0, S.Continue));
  }

  lemma LeadsRequested(w0: World, es: seq<Event>, w: World, ann: Name, bob: Name) returns (es': seq<Event>, w': World)
    requires Leads(w0, es, w) && Calm(w, ann, bob) && ann != bob
    requires w.clients[ann] == Asked(ann, bob) && w.clients[bob] == S.Initial(bob, true)
    ensures Leads(w0, es', w') && Calm(w', ann, bob)
    ensures w'.clients[ann] == Asked(ann, bob).(packs := 2, tasks := [])
    ensures w'.clients[bob] == S.Handle(S.Initial(bob, true), FrameWith(Asked(ann, bob), 1, bob, 7))
  {
    Encrypts(w.clients[ann], 1, bob, 7);
    es', w' := LeadsLocal(w0, es, w, ann, bob, ann, S.ResumeAt(0, S.Continue));
    es', w' := LeadsOver(w0, es', w', 0, 1, ann, bob, FrameWith(Asked(ann, bob), 1, bob, 7));
  }

  lemma LeadsAnswered(w0: World, es: seq<Event>, w: World, ann: Name, bob: Name) returns (es': seq<Event>, w': World)
    requires Leads(w0, es, w) && Calm(w, ann, bob) && ann != bob
    requires w.clients[ann] == Asked(ann, bob).(packs := 2, tasks := [])
    requires w.clients[bob] == S.Handle(S.Initial(bob, true), FrameWith(Asked(ann, bob), 1, bob, 7))
    ensures Leads(w0, es', w') && Calm(w', ann, bob)
    ensures w'.clients[ann] == Friends(ann, bob) && w'.clients[bob] == Answered(bob, ann).(tasks := [])
  {
    Answers(bob, FrameWith(Asked(ann, bob), 1, bob, 7));
    es', w' := LeadsLocal(w0, es, w, ann, bob, bob, S.ResumeAt(0, S.Decided(true, KeyOf(ann))));
    var g := Frame(1, bob, ann, ReceiptPack([Receipt(1, Received)]));
    Befriends(ann, bob, g);
    CalmTurned(w', 0, 1, ann, bob);
    es', w' := LeadsOver(w0, es', w', 1, 0, bob, ann, g);
    CalmTurned(w', 1, 0, bob, ann);
  }

  lemma LeadsTexted(w0: World, es: seq<Event>, w: World, ann: Name, bob: Name, text: nat)
      returns (es': seq<Event>, w': World)
    requires Leads(w0, es, w) && Calm(w, ann, bob) && ann != bob
    requires w.clients[ann] == Friends(ann, bob) && w.clients[bob] == Answered(bob, ann).(tasks := [])
    ensures Leads(w0, es', w') && OnItsWay(w', 0, 1, 0, FrameWith(Texted(ann, bob, text), 2, bob, text), 2)
  {
    Texts(ann, bob, text);
    es', w' := LeadsLocal(w0, es, w, ann, bob, ann, S.SayIn(0, text));
    es', w' := LeadsLocal(w0, es', w', ann, bob, ann, S.ResumeAt(0, S.Continue));
    Encrypts(w'.clients[ann], 2, bob, text);
    es', w' := LeadsLocal(w0, es', w', ann, bob, ann, S.ResumeAt(0, S.Continue));
  }

  /** From the beginning to a contact request shown as received, and on to a text on its way. */
  lemma FirstContact(ann: Name, bob: Name, text: nat)
      returns (es: seq<Event>, w: World, more: seq<Event>, w': World, f: Frame)
    requires ann != Nobody && bob != Nobody && ann != bob
    ensures Leads(Start(ann, bob), es, w) && ShownReceived(w, ann, 1)
    ensures Leads(Start(ann, bob), more, w') && OnItsWay(w', 0, 1, 0, f, 2) && f.sender == ann && f.receiver == bob
  {
    var w0 := Start(ann, bob);
    es := LeadsBothConnected(ann, bob);
    ConnectedIsCalm(ann, bob);
    w := ConnectedBoth(ann, bob);
    es, w := LeadsAsked(w0, es, w, ann, bob);
    es, w := LeadsRequested(w0, es, w, ann, bob);
    es, w := LeadsAnswered(w0, es, w, ann, bob);
    assert ShowsReceived(w.clients, ann, 1, Friends(ann, bob).archive[1].value);
    more, w' := LeadsTexted(w0, es, w, ann, bob, text);
    f := FrameWith(Texted(ann, bob, text), 2, bob, text);
  }

  /** There are runs in which a contact request, and then a text, is shown as received. */
  lemma ReceiptsHappen(ann: Name, bob: Name, text: nat)
    requires ann != Nobody && bob != Nobody && ann != bob
    ensures exists es :: ShownReceived(Run({ann, bob}, {ann, bob}, es), ann, 1)
    ensures exists es :: ShownReceived(Run({ann, bob}, {ann, bob}, es), ann, 2)
  {
    var es, w, more, w', f := FirstContact(ann, bob, text);
    FromTheStart(ann, bob, es, w);
    FromTheStart(ann, bob, more, w');
    ReceiptComes({ann, bob}, {ann, bob}, more, 0, 1, 0, f, 2);
  }

  lemma FromTheStart(ann: Name, bob: Name, es: seq<Event>, w: World)
    requires Leads(Start(ann, bob), es, w)
    ensures Run({ann, bob}, {ann, bob}, es) == w
  {
    LeadsRun({ann, bob}, {ann, bob}, [], es, w);
    assert [] + es == es;
  }
}
