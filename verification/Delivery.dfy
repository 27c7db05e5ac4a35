/**
  Nothing but loss keeps a message to a contact from being shown as received. From any state
  in which two clients are connected and one of them has a message for the other to send,
  what is already under way between them can be delivered first; then the message goes
  there, and its receipt comes back.
*/
module Delivery {
  import opened Basics
  import opened Frames
  import opened Protocol
  import opened RoundTrip
  import C = ClientLaws
  import L = RelayLaws
  import S = ChatClient
  import R = Relay

  // ---- runs from a given world ----

  ghost predicate StepTo(w: World, e: Event, w': World) {
    R.InRange(w.server) && w' == Next(w, e)
  }

  /** The worlds that the events go through. */
  ghost predicate IsTrace(trace: seq<World>, es: seq<Event>) {
    |trace| == |es| + 1 && forall k | 0 <= k < |es| :: StepTo(trace[k], es[k], trace[k + 1])
  }

  /** From `w0` the events lead to `w`. */
  ghost predicate Leads(w0: World, es: seq<Event>, w: World) {
    R.InRange(w.server) && exists trace :: IsTrace(trace, es) && trace[0] == w0 && trace[|es|] == w
  }

  lemma LeadsNowhere(w: World)
    requires R.InRange(w.server)
    ensures Leads(w, [], w)
  {
    assert IsTrace([w], []);
  }

  lemma LeadsOn(w0: World, es: seq<Event>, w: World, e: Event)
    requires Leads(w0, es, w)
    ensures Leads(w0, es + [e], Next(w, e))
  {
    var trace :| IsTrace(trace, es) && trace[0] == w0 && trace[|es|] == w;
    assert IsTrace(trace + [Next(w, e)], es + [e]);
  }

  lemma LeadsRun(names: set<Name>, asking: set<Name>, es: seq<Event>, more: seq<Event>, w: World)
    requires Leads(Run(names, asking, es), more, w)
    ensures Run(names, asking, es + more) == w
  {
    var trace :| IsTrace(trace, more) && trace[0] == Run(names, asking, es) && trace[|more|] == w;
    TraceRun(names, asking, es, trace, more, |more|);
    assert more[..|more|] == more;
  }

  lemma {:induction false} TraceRun(names: set<Name>, asking: set<Name>, es: seq<Event>,
                                    trace: seq<World>, more: seq<Event>, n: nat)
    requires IsTrace(trace, more) && trace[0] == Run(names, asking, es) && n <= |more|
    ensures Run(names, asking, es + more[..n]) == trace[n]
  {
    if n == 0 {
      assert es + more[..0] == es;
    } else {
      TraceRun(names, asking, es, trace, more, n - 1);
      TraceStep(trace, more, n);
      RunPrefix(names, asking, es, more, n, trace[n - 1], trace[n]);
    }
  }

  lemma TraceStep(trace: seq<World>, es: seq<Event>, n: nat)
    requires IsTrace(trace, es) && 0 < n <= |es|
    ensures StepTo(trace[n - 1], es[n - 1], trace[n])
  {
    var k := n - 1;
    assert StepTo(trace[k], es[k], trace[k + 1]);
  }

  lemma RunPrefix(names: set<Name>, asking: set<Name>, es: seq<Event>, more: seq<Event>, n: nat, w: World, w': World)
    requires 0 < n <= |more| && Run(names, asking, es + more[..n - 1]) == w && StepTo(w, more[n - 1], w')
    ensures Run(names, asking, es + more[..n]) == w'
  {
    assert es + more[..n] == es + more[..n - 1] + [more[n - 1]];
    RunSnoc(names, asking, es + more[..n - 1], more[n - 1]);
  }

  lemma RunSnoc(names: set<Name>, asking: set<Name>, es: seq<Event>, e: Event)
    ensures Run(names, asking, es + [e]) == Next(Run(names, asking, es), e)
  {
    assert (es + [e])[..|es|] == es;
  }

  // ---- what is under way between two clients ----

  ghost function Up(w: World, i: nat): seq<Frame>
    requires i < |w.server.sessions|
  {
    if LinkAt(w, i) < |w.links| then w.links[LinkAt(w, i)].up else []
  }

  ghost function Down(w: World, i: nat): seq<Frame>
    requires i < |w.server.sessions|
  {
    if LinkAt(w, i) < |w.links| then w.links[LinkAt(w, i)].down else []
  }

  /** How much is under way; a frame still to cross the server counts for more. */
  ghost function Weight(w: World, i: nat, j: nat): nat
    requires R.InRange(w.server) && i < |w.server.sessions| && j < |w.server.sessions|
  {
    3 * (|Up(w, i)| + |Up(w, j)|) + 2 * (|MailAt(w.server, i)| + |MailAt(w.server, j)|) + |Down(w, i)| + |Down(w, j)|
  }

  lemma Turned(w: World, i: nat, j: nat)
    requires Linked(w, i, j)
    ensures Linked(w, j, i) && Weight(w, j, i) == Weight(w, i, j)
  {
  }

  /** The same connections, whatever they carry. */
  ghost predicate SameOwners(w: World, w': World) {
    |w'.links| == |w.links| && forall k | 0 <= k < |w.links| :: w'.links[k].owner == w.links[k].owner
  }

  lemma LinkedStays(w: World, w': World, i: nat, j: nat)
    requires Linked(w, i, j) && R.InRange(w'.server) && SameUsers(w.server, w'.server) && SameOwners(w, w')
    ensures Linked(w', i, j)
    ensures FingerprintAt(w'.server, i) == FingerprintAt(w.server, i)
    ensures FingerprintAt(w'.server, j) == FingerprintAt(w.server, j)
  {
  }

  // ---- the server goes on ----

  lemma PostAdds(s: R.Server, to: nat, m: R.SessionMessage, u: nat, v: nat)
    requires to < |s.users| && u < |s.users| && v < |s.users| && u != v
    ensures
      var r := R.PostTo(s, to, m);
      && SameUsers(s, r)
      && |r.users[u].mailbox| + |r.users[v].mailbox| <= |s.users[u].mailbox| + |s.users[v].mailbox| + 1
  {
  }

  lemma SameUsersTransitive(s: R.Server, m: R.Server, r: R.Server)
    requires SameUsers(s, m) && SameUsers(m, r)
    ensures SameUsers(s, r)
  {
  }

  lemma DispatchKeepsUsers(s: R.Server, i: nat, f: Frame)
    requires R.InRange(s) && i < |s.sessions|
    ensures SameUsers(s, R.Dispatch(s, i, f))
  {
    var user := s.sessions[i].user;
    var accepted := R.Accept(s, i, f);
    match R.GetUser(s, f.receiver)
    case None =>
    case Some(to) =>
      var noted := R.NoteContact(accepted, user, f.receiver);
      var posted := R.PostTo(noted, to, R.SessionMessage(Some(user), to, f));
      var report := R.ErrorMessage(user, posted.users[user].fp, MessageNotDelivered, f.id);
      assert SameUsers(s, noted);
      SameUsersTransitive(s, noted, posted);
      SameUsersTransitive(s, posted, R.PostTo(posted, user, report));
  }

  /** Handling one frame puts at most one message into two mailboxes. */
  lemma ReceiveAdds(s: R.Server, i: nat, f: Frame, u: nat, v: nat)
    requires R.InRange(s) && i < |s.sessions| && u < |s.users| && v < |s.users| && u != v
    ensures
      var r := R.Receive(s, i, R.Parsed(f));
      && SameUsers(s, r)
      && |r.users[u].mailbox| + |r.users[v].mailbox| <= |s.users[u].mailbox| + |s.users[v].mailbox| + 1
  {
    var user := s.sessions[i].user;
    if f.sender != s.users[user].fp {
      PostAdds(s, user, R.ErrorMessage(user, s.users[user].fp, VerifyError, f.id), u, v);
    } else {
      DispatchKeepsUsers(s, i, f);
      DispatchAdds(s, R.Dispatch(s, i, f), i, f, u, v);
    }
  }

  lemma DispatchAdds(s: R.Server, r: R.Server, i: nat, f: Frame, u: nat, v: nat)
    requires R.InRange(s) && i < |s.sessions| && u < |s.users| && v < |s.users| && u != v
    requires r == R.Dispatch(s, i, f)
    ensures |L.Mail(r, u)| + |L.Mail(r, v)| <= |L.Mail(s, u)| + |L.Mail(s, v)| + 1
  {
    L.DispatchEffect(s, i, f);
  }

  lemma TakeGoesOn(w: World, i: nat, j: nat)
    requires Linked(w, i, j) && Up(w, i) != []
    ensures
      var w' := TakeStep(w, i);
      && SameUsers(w.server, w'.server) && SameOwners(w, w') && w'.clients == w.clients
      && Weight(w', i, j) < Weight(w, i, j)
  {
    ReceiveAdds(w.server, i, Up(w, i)[0], w.server.sessions[i].user, w.server.sessions[j].user);
  }

  lemma SendGoesOn(w: World, i: nat, j: nat)
    requires Linked(w, i, j) && MailAt(w.server, i) != []
    ensures
      var w' := SendStep(w, i);
      && SameUsers(w.server, w'.server) && SameOwners(w, w') && w'.clients == w.clients
      && Weight(w', i, j) < Weight(w, i, j)
  {
  }

  lemma HandOverGoesOn(w: World, i: nat, j: nat)
    requires Linked(w, i, j) && Down(w, i) != [] && FingerprintAt(w.server, i) in w.clients
    ensures
      var a := FingerprintAt(w.server, i);
      var w' := DeliverStep(w, LinkAt(w, i));
      && w'.server == w.server && SameOwners(w, w')
      && w'.clients == w.clients[a := S.Handle(w.clients[a], Down(w, i)[0])]
      && Weight(w', i, j) < Weight(w, i, j)
  {
  }

  // ---- the clients go on ----

  /** What `OnItsWay` says of the clients. */
  ghost predicate HasToSend(cs: Clients, a: Name, b: Name, k: nat, f: Frame, n: nat) {
    && a in cs && k < |cs[a].tasks| && cs[a].tasks[k] == S.Signing(f)
    && f.sender == a && f.receiver == b
    && f.body.MessagePack? && |f.body.entries| == 1 && f.body.entries[0].msgId == n
    && b in cs && cs[b].me == b && a in cs[b].contacts
    && n < |cs[a].archive| && cs[a].archive[n].Some?
  }

  lemma HandleAppends(c: S.Client, g: Frame)
    ensures c.tasks <= S.Handle(c, g).tasks
  {
    match g.body
    case MessagePack(es) =>
      if g.sender in c.contacts {
        var ms := S.Incoming(g.sender, es);
        DeliverAllShape(S.SendPack(c, S.GenReceipt(ms, Received), g.sender), c.contacts[g.sender], ms);
      }
    case ReceiptPack(rs) => ReceiptsKeepTasks(c, rs);
    case _ =>
  }

  lemma {:induction false} ReceiptsKeepTasks(c: S.Client, rs: seq<Receipt>)
    ensures S.ApplyReceipts(c, rs).tasks == c.tasks
    decreases |rs|
  {
    if rs != [] {
      ReceiptsKeepTasks(S.ApplyReceipt(c, rs[0]), rs[1..]);
    }
  }

  lemma HandleStays(cs: Clients, a: Name, b: Name, k: nat, f: Frame, n: nat, x: Name, g: Frame)
    requires HasToSend(cs, a, b, k, f, n) && x in cs && C.Sound(cs[x])
    ensures HasToSend(cs[x := S.Handle(cs[x], g)], a, b, k, f, n)
  {
    C.HandleGrows(cs[x], g);
    HandleAppends(cs[x], g);
  }

  // ---- settling ----

  ghost predicate Waiting(w: World, i: nat, j: nat, k: nat, f: Frame, n: nat) {
    && Invariant(w) && Linked(w, i, j)
    && HasToSend(w.clients, FingerprintAt(w.server, i), FingerprintAt(w.server, j), k, f, n)
  }

  lemma OwnersAreClients(w: World, i: nat, j: nat)
    requires Invariant(w) && Linked(w, i, j)
    ensures FingerprintAt(w.server, i) in w.clients && FingerprintAt(w.server, j) in w.clients
    ensures C.Sound(w.clients[FingerprintAt(w.server, i)]) && C.Sound(w.clients[FingerprintAt(w.server, j)])
  {
    assert LinkTruthful(w.clients, w.links[LinkAt(w, i)]) && LinkTruthful(w.clients, w.links[LinkAt(w, j)]);
    assert ClientTruthful(w.clients, FingerprintAt(w.server, i));
    assert ClientTruthful(w.clients, FingerprintAt(w.server, j));
  }

  /** The server or the clients can make one step with what is under way at session `x`, one
      of the two, and `y` is the other. */
  function Onward(w: World, x: nat): Event
    requires R.InRange(w.server) && x < |w.server.sessions|
  {
    if LinkAt(w, x) < |w.links| && w.links[LinkAt(w, x)].up != [] then ServerTakes(x)
    else if MailAt(w.server, x) != [] then ServerSends(x)
    else HandOver(LinkAt(w, x))
  }

  ghost predicate Busy(w: World, x: nat)
    requires R.InRange(w.server) && x < |w.server.sessions|
  {
    Up(w, x) != [] || MailAt(w.server, x) != [] || Down(w, x) != []
  }

  /** Something under way at `x` has moved on; the one client concerned has handled it. */
  ghost predicate WentOn(w: World, w': World, x: nat, y: nat) {
    && Linked(w, x, y) && R.InRange(w'.server) && SameUsers(w.server, w'.server) && SameOwners(w, w')
    && Weight(w', x, y) < Weight(w, x, y)
    && ClientHandled(w.clients, w'.clients, FingerprintAt(w.server, x))
  }

  ghost predicate ClientHandled(cs: Clients, ds: Clients, c: Name) {
    ds == cs || exists g :: HandledBy(cs, ds, c, g)
  }

  ghost predicate HandledBy(cs: Clients, ds: Clients, c: Name, g: Frame) {
    c in cs && ds == cs[c := S.Handle(cs[c], g)]
  }

  lemma OnwardLowers(w: World, x: nat, y: nat)
    requires Invariant(w) && Linked(w, x, y) && Busy(w, x)
    ensures WentOn(w, OnwardWorld(w, x), x, y)
  {
    OwnersAreClients(w, x, y);
    if Up(w, x) != [] {
      TakeGoesOn(w, x, y);
    } else if MailAt(w.server, x) != [] {
      SendGoesOn(w, x, y);
    } else {
      HandOverGoesOn(w, x, y);
      assert HandledBy(w.clients, OnwardWorld(w, x).clients, FingerprintAt(w.server, x), Down(w, x)[0]);
    }
  }

  function OnwardWorld(w: World, x: nat): World
    requires R.InRange(w.server) && x < |w.server.sessions|
  {
    if LinkAt(w, x) < |w.links| && w.links[LinkAt(w, x)].up != [] then TakeStep(w, x)
    else if MailAt(w.server, x) != [] then SendStep(w, x)
    else DeliverStep(w, LinkAt(w, x))
  }

  lemma OnwardIsNext(w: World, x: nat)
    requires R.InRange(w.server) && x < |w.server.sessions|
    ensures Next(w, Onward(w, x)) == OnwardWorld(w, x)
  {
  }

  lemma OnwardStays(w: World, i: nat, j: nat, k: nat, f: Frame, n: nat, x: nat)
    requires Waiting(w, i, j, k, f, n) && x in {i, j} && Busy(w, x)
    ensures
      var w' := Next(w, Onward(w, x));
      Waiting(w', i, j, k, f, n) && Weight(w', i, j) < Weight(w, i, j)
  {
    var w', y := Next(w, Onward(w, x)), if x == i then j else i;
    Turned(w, i, j);
    OnwardLowers(w, x, y);
    OnwardIsNext(w, x);
    StepKeepsInvariant(w, Onward(w, x));
    WentOnStays(w, w', i, j, k, f, n, x);
  }

  lemma WentOnStays(w: World, w': World, i: nat, j: nat, k: nat, f: Frame, n: nat, x: nat)
    requires Waiting(w, i, j, k, f, n) && x in {i, j} && WentOn(w, w', x, if x == i then j else i) && Invariant(w')
    ensures Waiting(w', i, j, k, f, n) && Weight(w', i, j) < Weight(w, i, j)
  {
    Turned(w, i, j);
    LinkedStays(w, w', i, j);
    Turned(w', i, j);
    ClientsStay(w, w', i, j, k, f, n, x);
  }

  lemma ClientsStay(w: World, w': World, i: nat, j: nat, k: nat, f: Frame, n: nat, x: nat)
    requires Waiting(w, i, j, k, f, n) && x in {i, j}
    requires ClientHandled(w.clients, w'.clients, FingerprintAt(w.server, x))
    ensures HasToSend(w'.clients, FingerprintAt(w.server, i), FingerprintAt(w.server, j), k, f, n)
  {
    var a, b := FingerprintAt(w.server, i), FingerprintAt(w.server, j);
    var c := FingerprintAt(w.server, x);
    OwnersAreClients(w, i, j);
    if w'.clients != w.clients {
      var g :| HandledBy(w.clients, w'.clients, c, g);
      HandleStays(w.clients, a, b, k, f, n, c, g);
    }
  }

  /** Everything under way between the two can be delivered first. */
  lemma {:induction false} Settle(w0: World, es: seq<Event>, w: World, i: nat, j: nat, k: nat, f: Frame, n: nat)
      returns (es': seq<Event>, w': World)
    requires Leads(w0, es, w) && Waiting(w, i, j, k, f, n)
    ensures Leads(w0, es', w') && Waiting(w', i, j, k, f, n)
    ensures Connected(w', i, j) && NothingWaits(w', i, j)
    decreases Weight(w, i, j)
  {
    if !Busy(w, i) && !Busy(w, j) {
      es', w' := es, w;
    } else {
      var x := if Busy(w, i) then i else j;
      OnwardStays(w, i, j, k, f, n, x);
      LeadsOn(w0, es, w, Onward(w, x));
      es', w' := Settle(w0, es + [Onward(w, x)], Next(w, Onward(w, x)), i, j, k, f, n);
    }
  }

  // ---- there and back ----

  lemma LeadsConvey(w0: World, es: seq<Event>, w: World, i: nat, j: nat, k: nat) returns (es': seq<Event>)
    requires Leads(w0, es, w) && i < |w.server.sessions| && j < |w.server.sessions|
    ensures Leads(w0, es', Convey(w, i, j, k))
  {
    var w1 := SendOff(w, i, k);
    var w2 := TakeStep(w1, i);
    es' := LeadsSendOff(w0, es, w, i, k);
    LeadsOn(w0, es', w1, ServerTakes(i));
    es' := es' + [ServerTakes(i)];
    es' := LeadsOut(w0, es', w2, j, LinkAt(w, j));
  }

  lemma LeadsSendOff(w0: World, es: seq<Event>, w: World, i: nat, k: nat) returns (es': seq<Event>)
    requires Leads(w0, es, w) && i < |w.server.sessions|
    ensures Leads(w0, es', SendOff(w, i, k))
  {
    var e := ClientActs(FingerprintAt(w.server, i), S.ResumeAt(k, S.Continue), LinkAt(w, i));
    LeadsOn(w0, es, w, e);
    es' := es + [e];
  }

  lemma LeadsOut(w0: World, es: seq<Event>, w: World, j: nat, link: nat) returns (es': seq<Event>)
    requires Leads(w0, es, w)
    ensures Leads(w0, es', DeliverStep(SendStep(w, j), link))
  {
    LeadsOn(w0, es, w, ServerSends(j));
    LeadsOn(w0, es + [ServerSends(j)], SendStep(w, j), HandOver(link));
    es' := es + [ServerSends(j)] + [HandOver(link)];
  }

  lemma LeadsToReceived(w0: World, es: seq<Event>, w: World, i: nat, j: nat, k: nat, f: Frame, n: nat)
      returns (es': seq<Event>, w': World)
    requires Leads(w0, es, w) && Waiting(w, i, j, k, f, n)
    ensures Leads(w0, es', w') && ShownReceived(w', f.sender, n)
  {
    var es1, w1 := Settle(w0, es, w, i, j, k, f, n);
    There(w1, i, j, k, f, n);
    var k' := |w1.clients[f.receiver].tasks|;
    Back(w1, Convey(w1, i, j, k), i, j, f, n);
    var es2 := LeadsConvey(w0, es1, w1, i, j, k);
    es' := LeadsConvey(w0, es2, Convey(w1, i, j, k), j, i, k');
    w' := Convey(Convey(w1, i, j, k), j, i, k');
  }

  /** Every run that comes to the point where a client has an archived message to send to a
      client that has it as a contact, both connected and cached, goes on to a run in which
      the message is shown as received, whatever else is under way. */
  lemma ReceiptComes(names: set<Name>, asking: set<Name>, es: seq<Event>, i: nat, j: nat, k: nat, f: Frame, n: nat)
    requires OnItsWay(Run(names, asking, es), i, j, k, f, n)
    ensures exists more :: ShownReceived(Run(names, asking, es + more), f.sender, n)
  {
    var more := ReceiptComesFrom(names, asking, es, Run(names, asking, es), i, j, k, f, n);
  }

  lemma ReceiptComesFrom(names: set<Name>, asking: set<Name>, es: seq<Event>, w: World,
                         i: nat, j: nat, k: nat, f: Frame, n: nat) returns (more: seq<Event>)
    requires w == Run(names, asking, es) && OnItsWay(w, i, j, k, f, n)
    ensures ShownReceived(Run(names, asking, es + more), f.sender, n)
  {
    AlwaysInvariant(names, asking, es);
    LeadsNowhere(w);
    var w';
    more, w' := LeadsToReceived(w, [], w, i, j, k, f, n);
    LeadsRun(names, asking, es, more, w');
  }
}
