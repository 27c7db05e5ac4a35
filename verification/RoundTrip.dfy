/**
  One message there and its receipt back, step by step, in a state in which nothing else is
  under way between the two clients. `Delivery` leads every state to such a one.
*/
module RoundTrip {
  import opened Basics
  import opened Frames
  import opened Protocol
  import S = ChatClient
  import R = Relay

  /** Sessions `i` and `j` belong to different users, each the one that is cached under its
      fingerprint, who do not block each other. */
  ghost predicate Met(s: R.Server, i: nat, j: nat) {
    && R.InRange(s) && i < |s.sessions| && j < |s.sessions|
    && Known(s, s.sessions[i].user, s.sessions[j].user) && Known(s, s.sessions[j].user, s.sessions[i].user)
  }

  ghost predicate Known(s: R.Server, u: nat, v: nat) {
    && u < |s.users| && v < |s.users| && u != v
    && R.GetUser(s, s.users[u].fp) == Some(u) && s.users[v].fp !in s.users[u].blackList
  }

  function MailAt(s: R.Server, i: nat): seq<R.SessionMessage>
    requires R.InRange(s) && i < |s.sessions|
  {
    s.users[s.sessions[i].user].mailbox
  }

  ghost predicate Ready(s: R.Server, i: nat, j: nat) {
    Met(s, i, j) && MailAt(s, i) == [] && MailAt(s, j) == []
  }

  function FingerprintAt(s: R.Server, i: nat): Name
    requires R.InRange(s) && i < |s.sessions|
  {
    s.users[s.sessions[i].user].fp
  }

  /** Mailboxes may differ; who is who, and what the cache says, stays. */
  ghost predicate SameUsers(s: R.Server, r: R.Server) {
    && |r.users| == |s.users| && r.cache == s.cache && r.sessions == s.sessions
    && (forall u | 0 <= u < |s.users| :: r.users[u].fp == s.users[u].fp && r.users[u].blackList == s.users[u].blackList)
  }

  lemma Taken(s: R.Server, i: nat, j: nat, f: Frame)
    requires Ready(s, i, j) && f.sender == FingerprintAt(s, i) && f.receiver == FingerprintAt(s, j)
    ensures
      var r := R.Receive(s, i, R.Parsed(f));
      var u, v := s.sessions[i].user, s.sessions[j].user;
      && SameUsers(s, r)
      && r.users[u].mailbox == [] && r.users[v].mailbox == [R.SessionMessage(Some(u), v, f)]
  {
  }

  lemma Sent(s: R.Server, i: nat, j: nat, r: R.Server, f: Frame)
    requires Ready(s, i, j) && R.InRange(r) && SameUsers(s, r) && f.sender == FingerprintAt(s, i)
    requires
      var u, v := s.sessions[i].user, s.sessions[j].user;
      r.users[u].mailbox == [] && r.users[v].mailbox == [R.SessionMessage(Some(u), v, f)]
    ensures R.Written(r, j) == Some(f) && SameUsers(s, R.Send(r, j)) && Ready(R.Send(r, j), i, j)
  {
  }

  // ---- one frame across the server ----

  /** Two sessions, each over a connection of its own client. */
  ghost predicate Linked(w: World, i: nat, j: nat) {
    && Met(w.server, i, j) && LinkAt(w, i) != LinkAt(w, j)
    && LinkAt(w, i) < |w.links| && w.links[LinkAt(w, i)].owner == FingerprintAt(w.server, i)
    && LinkAt(w, j) < |w.links| && w.links[LinkAt(w, j)].owner == FingerprintAt(w.server, j)
  }

  ghost predicate Connected(w: World, i: nat, j: nat) {
    Linked(w, i, j) && Ready(w.server, i, j)
  }

  function LinkAt(w: World, i: nat): nat
    requires i < |w.server.sessions|
  {
    w.server.sessions[i].conn
  }

  lemma Crosses(w: World, i: nat, j: nat, f: Frame)
    requires Connected(w, i, j) && f.sender == FingerprintAt(w.server, i) && f.receiver == FingerprintAt(w.server, j)
    requires w.links[LinkAt(w, i)].up == [f] && w.links[LinkAt(w, j)].down == []
    ensures
      var w' := SendStep(TakeStep(w, i), j);
      && Connected(w', i, j) && w'.clients == w.clients && w'.server.sessions == w.server.sessions
      && SameUsers(w.server, w'.server)
      && w'.links == w.links[LinkAt(w, i) := w.links[LinkAt(w, i)].(up := [])]
                            [LinkAt(w, j) := w.links[LinkAt(w, j)].(down := [f])]
  {
    Taken(w.server, i, j, f);
    Sent(w.server, i, j, TakeStep(w, i).server, f);
    var li, lj := LinkAt(w, i), LinkAt(w, j);
    assert w.links[li].up[1..] == [] && w.links[lj].down + [f] == [f];
    assert TakeStep(w, i).links == w.links[li := w.links[li].(up := [])];
    assert SendStep(TakeStep(w, i), j).links == TakeStep(w, i).links[lj := w.links[lj].(down := [f])];
  }

  // ---- the clients' parts ----

  function Receipted(c: S.Client, sender: Name, n: int): Frame {
    Frame(c.packs, c.me, sender, ReceiptPack([Receipt(n, Received)]))
  }

  /** A contact's message is answered: the receipt waits for its signature as the last task. */
  lemma Answered(c: S.Client, f: Frame, e: Entry)
    requires f.body == MessagePack([e]) && f.sender in c.contacts
    ensures S.Handle(c, f).tasks == c.tasks + [S.Signing(Receipted(c, f.sender, e.msgId))]
  {
    var ms := S.Incoming(f.sender, [e]);
    var body := S.GenReceipt(ms, Received);
    assert body.receipts == [Receipt(e.msgId, Received)];
    DeliverAllShape(S.SendPack(c, body, f.sender), c.contacts[f.sender], ms);
  }

  lemma TaskSends(c: S.Client, k: nat, f: Frame)
    requires k < |c.tasks| && c.tasks[k] == S.Signing(f)
    ensures var e := S.Act(c, S.ResumeAt(k, S.Continue)); e.sent == Some(f) && e.client == S.Drop(c, k)
  {
  }

  lemma OneReceipt(c: S.Client, r: Receipt)
    ensures S.ApplyReceipts(c, [r]) == S.ApplyReceipt(c, r)
  {
  }

  lemma Settled(c: S.Client, g: Frame, n: nat)
    requires g.body == ReceiptPack([Receipt(n, Received)]) && n < |c.archive| && c.archive[n].Some?
    ensures
      var d := S.Handle(c, g);
      n < |d.archive| && d.archive[n] == Some(c.archive[n].value.(state := Some(Received)))
  {
    OneReceipt(c, Receipt(n, Received));
  }

  // ---- from one client to the other ----

  ghost predicate NothingWaits(w: World, i: nat, j: nat)
    requires Connected(w, i, j)
  {
    && w.links[LinkAt(w, i)].up == [] && w.links[LinkAt(w, i)].down == []
    && w.links[LinkAt(w, j)].up == [] && w.links[LinkAt(w, j)].down == []
  }

  /** A frame waits to be signed and sent by the client of session `i`. */
  ghost predicate AboutToSend(w: World, i: nat, k: nat, f: Frame)
    requires R.InRange(w.server) && i < |w.server.sessions|
  {
    var a := FingerprintAt(w.server, i);
    a in w.clients && k < |w.clients[a].tasks| && w.clients[a].tasks[k] == S.Signing(f)
  }

  /** The client of session `i` sends, the server takes and writes, the other handles. */
  function Convey(w: World, i: nat, j: nat, k: nat): (w': World)
    requires R.InRange(w.server) && i < |w.server.sessions| && j < |w.server.sessions|
    ensures R.InRange(w'.server) && |w'.server.sessions| == |w.server.sessions|
  {
    DeliverStep(SendStep(TakeStep(SendOff(w, i, k), i), j), LinkAt(w, j))
  }

  function SendOff(w: World, i: nat, k: nat): (w': World)
    requires R.InRange(w.server) && i < |w.server.sessions|
    ensures w'.server == w.server
  {
    ClientStep(w, FingerprintAt(w.server, i), S.ResumeAt(k, S.Continue), LinkAt(w, i))
  }

  lemma SentOff(w: World, i: nat, j: nat, k: nat, f: Frame)
    requires Connected(w, i, j) && NothingWaits(w, i, j) && AboutToSend(w, i, k, f)
    ensures
      var a, li := FingerprintAt(w.server, i), LinkAt(w, i);
      SendOff(w, i, k) == w.(clients := w.clients[a := S.Drop(w.clients[a], k)],
                             links := w.links[li := w.links[li].(up := [f])])
  {
    TaskSends(w.clients[FingerprintAt(w.server, i)], k, f);
    assert w.links[LinkAt(w, i)].up + [f] == [f];
  }

  lemma Conveyed(w: World, i: nat, j: nat, k: nat, f: Frame)
    requires Connected(w, i, j) && NothingWaits(w, i, j) && AboutToSend(w, i, k, f)
    requires f.sender == FingerprintAt(w.server, i) && f.receiver == FingerprintAt(w.server, j)
    requires f.receiver in w.clients && f.sender != f.receiver
    ensures
      var w' := Convey(w, i, j, k);
      && Connected(w', i, j) && NothingWaits(w', i, j)
      && w'.server.sessions == w.server.sessions && SameUsers(w.server, w'.server)
      && w'.clients == w.clients[f.sender := S.Drop(w.clients[f.sender], k)]
                                [f.receiver := S.Handle(w.clients[f.receiver], f)]
  {
    var w1 := SendOff(w, i, k);
    SentOff(w, i, j, k, f);
    Crosses(w1, i, j, f);
    HandedOver(SendStep(TakeStep(w1, i), j), i, j, f);
  }

  lemma HandedOver(w: World, i: nat, j: nat, f: Frame)
    requires Connected(w, i, j) && f.receiver == FingerprintAt(w.server, j) && f.receiver in w.clients
    requires w.links[LinkAt(w, j)].down == [f]
    ensures
      var l := w.links[LinkAt(w, j)];
      DeliverStep(w, LinkAt(w, j)) == w.(clients := w.clients[f.receiver := S.Handle(w.clients[f.receiver], f)],
                                         links := w.links[LinkAt(w, j) := l.(down := [])])
  {
    assert [f][1..] == [];
  }

  // ---- there and back ----

  /** Client `a` of session `i` has its archived message `n` to send, in frame `f`, to client
      `b` of session `j`, which has `a` as a contact. */
  ghost predicate OnItsWay(w: World, i: nat, j: nat, k: nat, f: Frame, n: nat) {
    && Linked(w, i, j) && AboutToSend(w, i, k, f)
    && f.sender == FingerprintAt(w.server, i) && f.receiver == FingerprintAt(w.server, j)
    && f.body.MessagePack? && |f.body.entries| == 1 && f.body.entries[0].msgId == n
    && f.receiver in w.clients && w.clients[f.receiver].me == f.receiver && f.sender in w.clients[f.receiver].contacts
    && n < |w.clients[f.sender].archive| && w.clients[f.sender].archive[n].Some?
  }

  lemma NamesDiffer(s: R.Server, i: nat, j: nat)
    requires Met(s, i, j)
    ensures FingerprintAt(s, i) != FingerprintAt(s, j)
  {
  }

  lemma There(w: World, i: nat, j: nat, k: nat, f: Frame, n: nat)
    requires OnItsWay(w, i, j, k, f, n) && Connected(w, i, j) && NothingWaits(w, i, j)
    ensures OnItsWayBack(w, Convey(w, i, j, k), i, j, f, n)
  {
    NamesDiffer(w.server, i, j);
    Conveyed(w, i, j, k, f);
    assert f.body == MessagePack([f.body.entries[0]]);
    Answered(w.clients[f.receiver], f, f.body.entries[0]);
  }

  /** In `w1` the other client is about to send its receipt for the message sent in `w`. */
  ghost predicate OnItsWayBack(w: World, w1: World, i: nat, j: nat, f: Frame, n: nat) {
    && Connected(w1, j, i) && NothingWaits(w1, j, i)
    && FingerprintAt(w1.server, i) == f.sender && FingerprintAt(w1.server, j) == f.receiver && f.sender != f.receiver
    && f.sender in w.clients && f.receiver in w.clients && f.sender in w1.clients
    && AboutToSend(w1, j, |w.clients[f.receiver].tasks|, Receipted(w.clients[f.receiver], f.sender, n))
    && w.clients[f.receiver].me == f.receiver
    && w1.clients[f.sender].archive == w.clients[f.sender].archive
  }

  lemma Back(w: World, w1: World, i: nat, j: nat, f: Frame, n: nat)
    requires OnItsWayBack(w, w1, i, j, f, n)
    requires n < |w.clients[f.sender].archive| && w.clients[f.sender].archive[n].Some?
    ensures ShownReceived(Convey(w1, j, i, |w.clients[f.receiver].tasks|), f.sender, n)
  {
    var g, k := Receipted(w.clients[f.receiver], f.sender, n), |w.clients[f.receiver].tasks|;
    Conveyed(w1, j, i, k, g);
    Settled(w1.clients[f.sender], g, n);
    var before := w1.clients[f.sender].archive[n].value;
    assert ShowsReceived(Convey(w1, j, i, k).clients, f.sender, n, before.(state := Some(Received)));
  }

  /** Client `a` shows its message `n` as received. */
  ghost predicate ShownReceived(w: World, a: Name, n: nat) {
    exists m :: ShowsReceived(w.clients, a, n, m)
  }
}
