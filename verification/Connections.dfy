/**
  The connections of `Protocol`, over every run: frames come out of a connection in the order
  in which they went in, each once; what is lost is lost with everything behind the last frame
  that came out. And what the steps at its two ends do with a frame, and nothing else.
*/
module Connections {
  import opened Basics
  import opened Frames
  import opened Protocol
  import S = ChatClient
  import R = Relay

  function UpAt(w: World, link: nat): seq<Frame> {
    if link < |w.links| then w.links[link].up else []
  }

  function DownAt(w: World, link: nat): seq<Frame> {
    if link < |w.links| then w.links[link].down else []
  }

  // ---- what goes in and what comes out ----

  /** The frame that a client puts on its connection in this step. */
  function PutUp(w: World, e: Event, link: nat): seq<Frame> {
    if e.ClientActs? && e.link == link && link < |w.links| && w.links[link].owner == e.fp && e.fp in w.clients
       && !e.action.Arrive? && S.Act(w.clients[e.fp], e.action).sent.Some?
    then [S.Act(w.clients[e.fp], e.action).sent.value] else []
  }

  /** The session that talks over this connection. */
  predicate TalksOver(w: World, i: nat, link: nat) {
    i < |w.server.sessions| && w.server.sessions[i].conn == link && link < |w.links|
  }

  /** The oldest frame, when the server takes one. */
  function TakenUp(w: World, e: Event, link: nat): seq<Frame> {
    if e.ServerTakes? && TalksOver(w, e.session, link) && UpAt(w, link) != [] then [UpAt(w, link)[0]] else []
  }

  function PutDown(w: World, e: Event, link: nat): seq<Frame>
    requires R.InRange(w.server)
  {
    if e.ServerSends? && TalksOver(w, e.session, link) && R.Written(w.server, e.session).Some?
    then [R.Written(w.server, e.session).value] else []
  }

  function TakenDown(w: World, e: Event, link: nat): seq<Frame> {
    if e.HandOver? && e.link == link && link < |w.links| && w.links[link].owner in w.clients && DownAt(w, link) != []
    then [DownAt(w, link)[0]] else []
  }

  /** What has gone in so far, in one direction, what has come out, and what is on its way. */
  datatype Traffic = Traffic(put: seq<Frame>, taken: seq<Frame>)

  function UpTraffic(names: set<Name>, asking: set<Name>, es: seq<Event>, link: nat): Traffic {
    if es == [] then Traffic([], [])
    else
      var n := |es| - 1;
      var t, w := UpTraffic(names, asking, es[..n], link), Run(names, asking, es[..n]);
      Traffic(t.put + PutUp(w, es[n], link), t.taken + TakenUp(w, es[n], link))
  }

  function DownTraffic(names: set<Name>, asking: set<Name>, es: seq<Event>, link: nat): Traffic {
    if es == [] then Traffic([], [])
    else
      var n := |es| - 1;
      var t, w := DownTraffic(names, asking, es[..n], link), Run(names, asking, es[..n]);
      Traffic(t.put + PutDown(w, es[n], link), t.taken + TakenDown(w, es[n], link))
  }

  /** In order, each at most once; and complete, if nothing was lost. */
  ghost predicate FirstInFirstOut(t: Traffic, onTheWay: seq<Frame>, lossless: bool) {
    Subsequence(t.taken + onTheWay, t.put) && (lossless ==> t.taken + onTheWay == t.put)
  }

  // ---- one step ----

  /** From `q` to `r` frames were taken at the front and put at the end. */
  ghost predicate MovesOn(q: seq<Frame>, taken: seq<Frame>, put: seq<Frame>, r: seq<Frame>) {
    taken + r == q + put
  }

  lemma TrafficMovesOn(t: Traffic, q: seq<Frame>, taken: seq<Frame>, put: seq<Frame>, r: seq<Frame>, lossless: bool)
    requires FirstInFirstOut(t, q, lossless) && MovesOn(q, taken, put, r)
    ensures FirstInFirstOut(Traffic(t.put + put, t.taken + taken), r, lossless)
  {
    SubsequenceAppend(t.taken + q, t.put, put);
    assert (t.taken + taken) + r == t.taken + (taken + r);
    assert (t.taken + q) + put == t.taken + (q + put);
  }

  lemma TrafficLost(t: Traffic, q: seq<Frame>, lossless: bool)
    requires FirstInFirstOut(t, q, lossless)
    ensures FirstInFirstOut(t, [], false)
  {
    SubsequencePrefix(t.taken, q);
    SubsequenceTransitive(t.taken, t.taken + q, t.put);
    assert t.taken + [] == t.taken;
  }

  lemma ClientMoves(w: World, fp: Name, action: S.Action, k: nat, link: nat)
    ensures UpAt(ClientStep(w, fp, action, k), link) == UpAt(w, link) + PutUp(w, ClientActs(fp, action, k), link)
    ensures DownAt(ClientStep(w, fp, action, k), link) == DownAt(w, link)
  {
  }

  lemma TakenFrom(w: World, i: nat)
    requires R.InRange(w.server)
    ensures
      var k := if i < |w.server.sessions| then w.server.sessions[i].conn else 0;
      TakeStep(w, i).links ==
        if TalksOver(w, i, k) && UpAt(w, k) != [] then w.links[k := w.links[k].(up := w.links[k].up[1..])] else w.links
  {
  }

  lemma FrontTaken(q: seq<Frame>)
    requires q != []
    ensures MovesOn(q, [q[0]], [], q[1..])
  {
  }

  lemma TakeMoves(w: World, i: nat, link: nat)
    requires R.InRange(w.server)
    ensures MovesOn(UpAt(w, link), TakenUp(w, ServerTakes(i), link), [], UpAt(TakeStep(w, i), link))
    ensures DownAt(TakeStep(w, i), link) == DownAt(w, link)
  {
    TakenFrom(w, i);
    if UpAt(w, link) != [] {
      FrontTaken(UpAt(w, link));
    }
  }

  lemma SendMoves(w: World, i: nat, link: nat)
    requires R.InRange(w.server)
    ensures DownAt(SendStep(w, i), link) == DownAt(w, link) + PutDown(w, ServerSends(i), link)
    ensures UpAt(SendStep(w, i), link) == UpAt(w, link)
  {
  }

  lemma DeliverMoves(w: World, k: nat, link: nat)
    ensures MovesOn(DownAt(w, link), TakenDown(w, HandOver(k), link), [], DownAt(DeliverStep(w, k), link))
    ensures UpAt(DeliverStep(w, k), link) == UpAt(w, link)
  {
  }

  lemma OtherMoves(w: World, e: Event, link: nat)
    requires R.InRange(w.server) && (e.Connect? || e.ServerInternal? || e.ServerHandshake?)
    ensures UpAt(Next(w, e), link) == UpAt(w, link) && DownAt(Next(w, e), link) == DownAt(w, link)
  {
  }

  lemma UpMovesOn(w: World, e: Event, link: nat)
    requires R.InRange(w.server) && e != LoseUp(link)
    ensures MovesOn(UpAt(w, link), TakenUp(w, e, link), PutUp(w, e, link), UpAt(Next(w, e), link))
  {
    match e
    case ClientActs(fp, action, k) => ClientMoves(w, fp, action, k, link);
    case ServerTakes(i) => TakeMoves(w, i, link);
    case ServerSends(i) => SendMoves(w, i, link);
    case HandOver(k) => DeliverMoves(w, k, link);
    case LoseUp(_) =>
    case LoseDown(_) =>
    case _ => OtherMoves(w, e, link);
  }

  lemma DownMovesOn(w: World, e: Event, link: nat)
    requires R.InRange(w.server) && e != LoseDown(link)
    ensures MovesOn(DownAt(w, link), TakenDown(w, e, link), PutDown(w, e, link), DownAt(Next(w, e), link))
  {
    if e.ServerSends? {
      SendMoves(w, e.session, link);
    } else if e.HandOver? {
      DeliverMoves(w, e.link, link);
    } else {
      DownKept(w, e, link);
    }
  }

  lemma DownKept(w: World, e: Event, link: nat)
    requires R.InRange(w.server) && e != LoseDown(link) && !e.ServerSends? && !e.HandOver?
    ensures DownAt(Next(w, e), link) == DownAt(w, link)
  {
    match e
    case ClientActs(fp, action, k) => ClientMoves(w, fp, action, k, link);
    case ServerTakes(i) => TakeMoves(w, i, link);
    case LoseUp(_) =>
    case LoseDown(_) =>
    case _ => OtherMoves(w, e, link);
  }

  // ---- every run ----

  /** From a client to the server. */
  lemma {:induction false} UpInOrder(names: set<Name>, asking: set<Name>, es: seq<Event>, link: nat)
    ensures FirstInFirstOut(UpTraffic(names, asking, es, link), UpAt(Run(names, asking, es), link), LoseUp(link) !in es)
  {
    if es != [] {
      var n := |es| - 1;
      var w, t := Run(names, asking, es[..n]), UpTraffic(names, asking, es[..n], link);
      UpInOrder(names, asking, es[..n], link);
      LastOrBefore(es, LoseUp(link));
      UpStep(w, es[n], link, t, LoseUp(link) !in es[..n]);
    }
  }

  lemma UpStep(w: World, e: Event, link: nat, t: Traffic, lossless: bool)
    requires R.InRange(w.server) && FirstInFirstOut(t, UpAt(w, link), lossless)
    ensures FirstInFirstOut(Traffic(t.put + PutUp(w, e, link), t.taken + TakenUp(w, e, link)), UpAt(Next(w, e), link),
                            lossless && e != LoseUp(link))
  {
    if e == LoseUp(link) {
      TrafficLost(t, UpAt(w, link), lossless);
      assert t.put + [] == t.put && t.taken + [] == t.taken;
    } else {
      UpMovesOn(w, e, link);
      TrafficMovesOn(t, UpAt(w, link), TakenUp(w, e, link), PutUp(w, e, link), UpAt(Next(w, e), link), lossless);
    }
  }

  /** From the server to a client. */
  lemma {:induction false} DownInOrder(names: set<Name>, asking: set<Name>, es: seq<Event>, link: nat)
    ensures
      FirstInFirstOut(DownTraffic(names, asking, es, link), DownAt(Run(names, asking, es), link), LoseDown(link) !in es)
  {
    if es != [] {
      var n := |es| - 1;
      var w, t := Run(names, asking, es[..n]), DownTraffic(names, asking, es[..n], link);
      DownInOrder(names, asking, es[..n], link);
      LastOrBefore(es, LoseDown(link));
      DownStep(w, es[n], link, t, LoseDown(link) !in es[..n]);
    }
  }

  lemma DownStep(w: World, e: Event, link: nat, t: Traffic, lossless: bool)
    requires R.InRange(w.server) && FirstInFirstOut(t, DownAt(w, link), lossless)
    ensures FirstInFirstOut(Traffic(t.put + PutDown(w, e, link), t.taken + TakenDown(w, e, link)),
                            DownAt(Next(w, e), link), lossless && e != LoseDown(link))
  {
    if e == LoseDown(link) {
      TrafficLost(t, DownAt(w, link), lossless);
      assert t.put + [] == t.put && t.taken + [] == t.taken;
    } else {
      DownMovesOn(w, e, link);
      TrafficMovesOn(t, DownAt(w, link), TakenDown(w, e, link), PutDown(w, e, link), DownAt(Next(w, e), link),
                     lossless);
    }
  }

  lemma LastOrBefore<T>(xs: seq<T>, x: T)
    requires xs != []
    ensures x in xs <==> x in xs[..|xs| - 1] || xs[|xs| - 1] == x
  {
  }

  // ---- the two ends ----

  /** What the server takes from a connection is what its session receives. */
  lemma TakenIsReceived(w: World, i: nat, link: nat)
    requires R.InRange(w.server) && TalksOver(w, i, link) && UpAt(w, link) != []
    ensures
      var r := Next(w, ServerTakes(i));
      r.server == R.Receive(w.server, i, R.Parsed(UpAt(w, link)[0])) && r.clients == w.clients
  {
  }

  /** What comes to a client is what it handles. */
  lemma HandedOverIsHandled(w: World, link: nat)
    requires R.InRange(w.server) && link < |w.links| && w.links[link].owner in w.clients && DownAt(w, link) != []
    ensures
      var r, a := Next(w, HandOver(link)), w.links[link].owner;
      && r.server == w.server && r.clients == w.clients[a := S.Handle(w.clients[a], DownAt(w, link)[0])]
  {
  }
}
