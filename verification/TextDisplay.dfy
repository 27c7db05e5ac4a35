/**
  The displayed state of a text, tied to the runs of `Protocol`: its events are the receipts
  that the client applies to the messages its timer archived, each frame followed by the
  scheduler's turn. A text shown as received is held by every other member of its session.
*/
module TextDisplay {
  import opened Basics
  import opened Frames
  import opened Protocol
  import A = AggregateSpec
  import C = ClientLaws
  import S = ChatClient
  import R = Relay

  function CodeOf(state: ReceiptState): A.Code {
    match state
    case Lost => A.LOST
    case Received => A.RECEIVED
    case Timeout => A.TIMEOUT
    case VerifyFailed => A.VERIFY_FAILED
    case Reject => A.REJECT
  }

  lemma OnlyReceivedHasTheBit(state: ReceiptState)
    ensures CodeOf(state) & A.RECEIVED != 0 <==> state == Received
  {
  }

  // ---- the events of a display, read off a run ----

  /** The receipts that client `a` applies in this step. */
  function Applied(w: World, a: Name, e: Event): seq<Receipt> {
    if e.HandOver? && e.link < |w.links| && w.links[e.link].owner == a && w.links[e.link].down != []
       && a in w.clients && w.links[e.link].down[0].body.ReceiptPack?
    then w.links[e.link].down[0].body.receipts
    else []
  }

  /** The ones about the `count` messages archived from `first` on. */
  function BatchEvents(c: S.Client, rs: seq<Receipt>, first: nat, count: nat): seq<A.Event> {
    if rs == [] then []
    else
      var r, rest := rs[0], BatchEvents(c, rs[1..], first, count);
      if first <= r.msgId < first + count && r.msgId < |c.archive| && c.archive[r.msgId].Some?
      then [A.Receipt(r.msgId - first, CodeOf(r.state))] + rest
      else rest
  }

  function EventsAt(w: World, a: Name, e: Event, first: nat, count: nat): seq<A.Event> {
    (if a in w.clients then BatchEvents(w.clients[a], Applied(w, a, e), first, count) else []) + [A.Turn]
  }

  function EventsOf(names: set<Name>, asking: set<Name>, es: seq<Event>, a: Name, first: nat,
                    count: nat): seq<A.Event> {
    if es == [] then []
    else
      EventsOf(names, asking, es[..|es| - 1], a, first, count)
      + EventsAt(Run(names, asking, es[..|es| - 1]), a, es[|es| - 1], first, count)
  }

  function Display(names: set<Name>, asking: set<Name>, es: seq<Event>, a: Name, first: nat, count: nat,
                   pending: A.Code): A.Shown
  {
    A.Run(pending, count, EventsOf(names, asking, es, a, first, count)).shown
  }

  // ---- worlds grow ----

  ghost predicate AllSound(cs: Clients) {
    forall a | a in cs :: C.Sound(cs[a])
  }

  lemma AlwaysAllSound(names: set<Name>, asking: set<Name>, es: seq<Event>)
    ensures AllSound(Run(names, asking, es).clients)
  {
    AlwaysInvariant(names, asking, es);
    var cs := Run(names, asking, es).clients;
    forall a | a in cs ensures C.Sound(cs[a]) {
      assert ClientTruthful(cs, a);
    }
  }

  lemma ClientStepGrows(w: World, fp: Name, action: S.Action, link: nat)
    requires AllSound(w.clients)
    ensures ClientsGrow(w.clients, ClientStep(w, fp, action, link).clients)
  {
    if fp in w.clients && !action.Arrive? {
      C.ActGrows(w.clients[fp], action);
    }
  }

  lemma DeliverStepGrows(w: World, link: nat)
    requires AllSound(w.clients)
    ensures ClientsGrow(w.clients, DeliverStep(w, link).clients)
  {
    if link < |w.links| && w.links[link].down != [] && w.links[link].owner in w.clients {
      C.HandleGrows(w.clients[w.links[link].owner], w.links[link].down[0]);
    }
  }

  lemma StepGrows(w: World, e: Event)
    requires R.InRange(w.server) && AllSound(w.clients)
    ensures ClientsGrow(w.clients, Next(w, e).clients)
  {
    match e
    case ClientActs(fp, action, link) => ClientStepGrows(w, fp, action, link);
    case HandOver(link) => DeliverStepGrows(w, link);
    case _ => OthersKeepClients(w, e);
  }

  lemma GrowsTransitive(cs: Clients, ds: Clients, bs: Clients)
    requires ClientsGrow(cs, ds) && ClientsGrow(ds, bs)
    ensures ClientsGrow(cs, bs)
  {
    forall a | a in cs ensures C.Grows(cs[a], bs[a]) {
      C.GrowsTransitive(cs[a], ds[a], bs[a]);
    }
  }

  lemma {:induction false} RunGrows(names: set<Name>, asking: set<Name>, es: seq<Event>, more: seq<Event>)
    ensures ClientsGrow(Run(names, asking, es).clients, Run(names, asking, es + more).clients)
    decreases |more|
  {
    if more == [] {
      assert es + more == es;
    } else {
      var n := |more| - 1;
      RunGrows(names, asking, es, more[..n]);
      SplitLast(es, more);
      GrowsOn(names, asking, Run(names, asking, es).clients, es + more[..n], more[n], es + more);
    }
  }

  lemma GrowsOn(names: set<Name>, asking: set<Name>, cs: Clients, before: seq<Event>, e: Event, all: seq<Event>)
    requires all == before + [e] && ClientsGrow(cs, Run(names, asking, before).clients)
    ensures ClientsGrow(cs, Run(names, asking, all).clients)
  {
    var w := Run(names, asking, before);
    AlwaysAllSound(names, asking, before);
    RunLast(names, asking, before, e, all);
    StepGrows(w, e);
    GrowsTransitive(cs, w.clients, Next(w, e).clients);
  }

  lemma RunLast(names: set<Name>, asking: set<Name>, before: seq<Event>, e: Event, all: seq<Event>)
    requires all == before + [e]
    ensures Run(names, asking, all) == Next(Run(names, asking, before), e)
  {
    assert all[..|all| - 1] == before;
  }

  // ---- received means arrived, also in the display ----

  ghost predicate MessageArrived(cs: Clients, a: Name, n: int) {
    && a in cs && 0 <= n < |cs[a].archive| && cs[a].archive[n].Some?
    && Arrived(cs, a, n, cs[a].archive[n].value)
  }

  lemma MessageArrivedStays(cs: Clients, ds: Clients, a: Name, n: int)
    requires ClientsGrow(cs, ds) && MessageArrived(cs, a, n)
    ensures MessageArrived(ds, a, n)
  {
    KindStays(cs, ds, a, n);
    ArrivedStays(cs, ds, a, n, cs[a].archive[n].value);
  }

  ghost predicate SaysReceived(e: A.Event) {
    e.Receipt? && e.state & A.RECEIVED != 0
  }

  /** Every message that an event reports as received has arrived. */
  ghost predicate EventsTrue(cs: Clients, a: Name, first: nat, evs: seq<A.Event>) {
    forall k | 0 <= k < |evs| && SaysReceived(evs[k]) :: MessageArrived(cs, a, first + evs[k].i)
  }

  lemma {:induction false} BatchTrue(cs: Clients, a: Name, b: Name, rs: seq<Receipt>, first: nat, count: nat)
    requires a in cs
    requires forall i | 0 <= i < |rs| :: rs[i].state == Received ==> ReceiptTrue(cs, b, a, rs[i].msgId)
    ensures EventsTrue(cs, a, first, BatchEvents(cs[a], rs, first, count))
    decreases |rs|
  {
    if rs != [] {
      BatchTrue(cs, a, b, rs[1..], first, count);
      OnlyReceivedHasTheBit(rs[0].state);
    }
  }

  /** At a step the receipts applied come from a truthful frame. */
  lemma StepTrue(w: World, a: Name, e: Event, first: nat, count: nat)
    requires Invariant(w) && a in w.clients
    ensures EventsTrue(w.clients, a, first, BatchEvents(w.clients[a], Applied(w, a, e), first, count))
  {
    if Applied(w, a, e) != [] {
      var l := w.links[e.link];
      assert LinkTruthful(w.clients, l);
      assert l.down[0].receiver == a && Truthful(w.clients, l.down[0]);
      BatchTrue(w.clients, a, l.down[0].sender, Applied(w, a, e), first, count);
    }
  }

  lemma EventsStayTrue(cs: Clients, ds: Clients, a: Name, first: nat, evs: seq<A.Event>)
    requires ClientsGrow(cs, ds) && EventsTrue(cs, a, first, evs)
    ensures EventsTrue(ds, a, first, evs)
  {
    forall k | 0 <= k < |evs| && SaysReceived(evs[k]) ensures MessageArrived(ds, a, first + evs[k].i) {
      MessageArrivedStays(cs, ds, a, first + evs[k].i);
    }
  }

  lemma EventsAtTrue(cs: Clients, w: World, a: Name, e: Event, first: nat, count: nat)
    requires Invariant(w) && ClientsGrow(w.clients, cs)
    ensures EventsTrue(cs, a, first, EventsAt(w, a, e, first, count))
  {
    if a in w.clients {
      var evs := BatchEvents(w.clients[a], Applied(w, a, e), first, count);
      StepTrue(w, a, e, first, count);
      EventsStayTrue(w.clients, cs, a, first, evs);
      EventsConcat(cs, a, first, evs, [A.Turn]);
    }
  }

  lemma OneMoreTrue(cs: Clients, w: World, a: Name, e: Event, first: nat, count: nat, evs: seq<A.Event>)
    requires Invariant(w) && ClientsGrow(w.clients, cs) && EventsTrue(w.clients, a, first, evs)
    ensures EventsTrue(cs, a, first, evs + EventsAt(w, a, e, first, count))
  {
    EventsStayTrue(w.clients, cs, a, first, evs);
    EventsAtTrue(cs, w, a, e, first, count);
    EventsConcat(cs, a, first, evs, EventsAt(w, a, e, first, count));
  }

  lemma EventsConcat(cs: Clients, a: Name, first: nat, xs: seq<A.Event>, ys: seq<A.Event>)
    requires EventsTrue(cs, a, first, xs) && EventsTrue(cs, a, first, ys)
    ensures EventsTrue(cs, a, first, xs + ys)
  {
    forall k | 0 <= k < |xs + ys| && SaysReceived((xs + ys)[k]) ensures MessageArrived(cs, a, first + (xs + ys)[k].i) {
      if k < |xs| {
        assert SaysReceived(xs[k]);
      } else {
        assert SaysReceived(ys[k - |xs|]);
      }
    }
  }

  lemma {:induction false} AllEventsTrue(names: set<Name>, asking: set<Name>, es: seq<Event>, a: Name, first: nat,
                                         count: nat)
    ensures EventsTrue(Run(names, asking, es).clients, a, first, EventsOf(names, asking, es, a, first, count))
  {
    if es != [] {
      var n := |es| - 1;
      AllEventsTrue(names, asking, es[..n], a, first, count);
      AlwaysInvariant(names, asking, es[..n]);
      AlwaysAllSound(names, asking, es[..n]);
      StepGrows(Run(names, asking, es[..n]), es[n]);
      OneMoreTrue(Run(names, asking, es).clients, Run(names, asking, es[..n]), a, es[n], first, count,
                  EventsOf(names, asking, es[..n], a, first, count));
    }
  }

  lemma {:induction false} ResolvedByReceipt(pending: A.Code, evs: seq<A.Event>, i: nat)
    requires A.FirstDecisive(pending, evs, i) == A.Resolved
    ensures exists k :: 0 <= k < |evs| && SaysReceived(evs[k]) && evs[k].i == i
  {
    if evs[0].Receipt? && evs[0].i == i && A.Judge(pending, evs[0].state) != A.Waiting {
      assert SaysReceived(evs[0]);
    } else {
      ResolvedByReceipt(pending, evs[1..], i);
      var k :| 0 <= k < |evs| - 1 && SaysReceived(evs[1..][k]) && evs[1..][k].i == i;
      assert SaysReceived(evs[k + 1]);
    }
  }

  /** The `count` messages from `first` on have all arrived. */
  ghost predicate BatchArrived(cs: Clients, a: Name, first: nat, count: nat) {
    forall n: nat | first <= n < first + count :: MessageArrived(cs, a, n)
  }

  lemma DisplayMeans(cs: Clients, a: Name, first: nat, count: nat, pending: A.Code, evs: seq<A.Event>)
    requires A.Run(pending, count, evs).shown == A.Shown.Received && EventsTrue(cs, a, first, evs)
    ensures BatchArrived(cs, a, first, count)
  {
    A.ShownFollowsVerdict(pending, count, evs);
    A.VerdictMeaning(pending, count, evs);
    forall n: nat | first <= n < first + count ensures MessageArrived(cs, a, n) {
      ResolvedByReceipt(pending, evs, n - first);
    }
  }

  /** Whatever batch of messages a display is about: shown as received, all have arrived. */
  lemma DisplayIsTrue(names: set<Name>, asking: set<Name>, es: seq<Event>, a: Name, first: nat, count: nat,
                      pending: A.Code)
    requires Display(names, asking, es, a, first, count, pending) == A.Shown.Received
    ensures BatchArrived(Run(names, asking, es).clients, a, first, count)
  {
    AllEventsTrue(names, asking, es, a, first, count);
    DisplayMeans(Run(names, asking, es).clients, a, first, count, pending,
                 EventsOf(names, asking, es, a, first, count));
  }

  // ---- the batch that a timer sends ----

  /** The messages for these recipients, in order, from position `first` on. */
  ghost predicate BatchArchived(c: S.Client, recipients: seq<Name>, text: nat, first: nat) {
    && first + |recipients| <= |c.archive|
    && forall x | 0 <= x < |recipients| :: ArchivedFor(c, recipients[x], text, first + x)
  }

  ghost predicate ArchivedFor(c: S.Client, recipient: Name, text: nat, n: nat) {
    && n < |c.archive| && c.archive[n].Some?
    && c.archive[n].value.receiver == recipient && c.archive[n].value.text == text && c.archive[n].value.kind == S.Chat
  }

  lemma {:induction false} StartSendsArchives(c: S.Client, recipients: seq<Name>, text: nat)
    ensures c.archive <= S.StartSends(c, recipients, text).archive
    ensures BatchArchived(S.StartSends(c, recipients, text), recipients, text, |c.archive|)
    decreases |recipients|
  {
    if recipients != [] {
      var m := S.StartSend(c, recipients[0], text, S.Chat);
      var d := S.StartSends(m, recipients[1..], text);
      StartSendsArchives(m, recipients[1..], text);
      assert d.archive[|c.archive|] == m.archive[|c.archive|];
      forall x | 0 <= x < |recipients| ensures ArchivedFor(d, recipients[x], text, |c.archive| + x) {
        if x > 0 {
          assert ArchivedFor(d, recipients[1..][x - 1], text, |m.archive| + (x - 1));
        }
      }
    }
  }

  lemma ArchivedForStays(c: S.Client, d: S.Client, recipient: Name, text: nat, n: nat)
    requires C.Grows(c, d) && ArchivedFor(c, recipient, text, n)
    ensures ArchivedFor(d, recipient, text, n)
  {
    assert d.archive[n].value.(state := None) == c.archive[n].value.(state := None);
  }

  /** Every other member of the session holds the message made for it, with the text. */
  ghost predicate HeldByAll(cs: Clients, a: Name, recipients: seq<Name>, text: nat, first: nat) {
    forall x | 0 <= x < |recipients| ::
      recipients[x] in cs && a in cs[recipients[x]].contacts && Holds(cs[recipients[x]], a, first + x, text)
  }

  /** The timer of a text fires as task `k` of client `a`. */
  ghost predicate TimerFires(w: World, a: Name, k: nat, recipients: seq<Name>, text: nat, first: nat) {
    && a in w.clients && k < |w.clients[a].tasks| && w.clients[a].tasks[k] == S.SendTimer(recipients, text)
    && first == |w.clients[a].archive|
  }

  function Firing(a: Name, k: nat, how: S.Resume, link: nat): Event {
    ClientActs(a, S.ResumeAt(k, how), link)
  }

  /** In every run in which the timer of a text fires: the text is in a session with just these
      other members; and if it is ever shown as received, all of them hold it. */
  lemma TextShownMeansHeld(names: set<Name>, asking: set<Name>, before: seq<Event>, after: seq<Event>, a: Name, k: nat,
                           how: S.Resume, link: nat, recipients: seq<Name>, text: nat, first: nat, pending: A.Code)
    requires TimerFires(Run(names, asking, before), a, k, recipients, text, first)
    ensures Said(Run(names, asking, before).clients[a], recipients, text)
    ensures
      var es := before + ([Firing(a, k, how, link)] + after);
      Display(names, asking, es, a, first, |recipients|, pending) == A.Shown.Received
      ==> HeldByAll(Run(names, asking, es).clients, a, recipients, text, first)
  {
    var es := before + ([Firing(a, k, how, link)] + after);
    TimerSaid(names, asking, before, a, k);
    if Display(names, asking, es, a, first, |recipients|, pending) == A.Shown.Received {
      TimerArchives(names, asking, before, after, a, k, how, link, recipients, text, first);
      DisplayIsTrue(names, asking, es, a, first, |recipients|, pending);
      BatchHeld(Run(names, asking, es).clients, a, recipients, text, first);
    }
  }

  lemma BatchHeld(cs: Clients, a: Name, recipients: seq<Name>, text: nat, first: nat)
    requires a in cs && BatchArchived(cs[a], recipients, text, first)
    requires BatchArrived(cs, a, first, |recipients|)
    ensures HeldByAll(cs, a, recipients, text, first)
  {
    forall x | 0 <= x < |recipients|
      ensures recipients[x] in cs && a in cs[recipients[x]].contacts && Holds(cs[recipients[x]], a, first + x, text)
    {
      assert ArchivedFor(cs[a], recipients[x], text, first + x) && MessageArrived(cs, a, first + x);
    }
  }

  lemma TimerSaid(names: set<Name>, asking: set<Name>, es: seq<Event>, a: Name, k: nat)
    requires
      var cs := Run(names, asking, es).clients;
      a in cs && k < |cs[a].tasks| && cs[a].tasks[k].SendTimer?
    ensures
      var c := Run(names, asking, es).clients[a];
      Said(c, c.tasks[k].recipients, c.tasks[k].text)
  {
    var cs := Run(names, asking, es).clients;
    AlwaysInvariant(names, asking, es);
    assert ClientTruthful(cs, a) && TaskTruthful(cs, a, cs[a].tasks[k]);
  }

  lemma FiringArchives(w: World, a: Name, k: nat, how: S.Resume, link: nat, recipients: seq<Name>, text: nat,
                       first: nat)
    requires TimerFires(w, a, k, recipients, text, first)
    ensures
      var cs := ClientStep(w, a, S.ResumeAt(k, how), link).clients;
      a in cs && BatchArchived(cs[a], recipients, text, first)
  {
    StartSendsArchives(S.Drop(w.clients[a], k), recipients, text);
  }

  lemma TimerArchives(names: set<Name>, asking: set<Name>, before: seq<Event>, after: seq<Event>, a: Name, k: nat,
                      how: S.Resume, link: nat, recipients: seq<Name>, text: nat, first: nat)
    requires TimerFires(Run(names, asking, before), a, k, recipients, text, first)
    ensures
      var cs := Run(names, asking, before + ([Firing(a, k, how, link)] + after)).clients;
      a in cs && BatchArchived(cs[a], recipients, text, first)
  {
    var e := Firing(a, k, how, link);
    assert before + ([e] + after) == before + [e] + after;
    FiringArchives(Run(names, asking, before), a, k, how, link, recipients, text, first);
    RunFiring(names, asking, before, a, k, how, link);
    RunGrows(names, asking, before + [e], after);
    BatchStays(Run(names, asking, before + [e]).clients, Run(names, asking, before + [e] + after).clients,
               a, recipients, text, first);
  }

  lemma RunFiring(names: set<Name>, asking: set<Name>, before: seq<Event>, a: Name, k: nat, how: S.Resume, link: nat)
    ensures Run(names, asking, before + [Firing(a, k, how, link)]) ==
            ClientStep(Run(names, asking, before), a, S.ResumeAt(k, how), link)
  {
    var e := Firing(a, k, how, link);
    assert (before + [e])[..|before|] == before;
  }

  lemma BatchStays(cs: Clients, ds: Clients, a: Name, recipients: seq<Name>, text: nat, first: nat)
    requires ClientsGrow(cs, ds) && a in cs && BatchArchived(cs[a], recipients, text, first)
    ensures a in ds && BatchArchived(ds[a], recipients, text, first)
  {
    forall x | 0 <= x < |recipients| ensures ArchivedFor(ds[a], recipients[x], text, first + x) {
      ArchivedForStays(cs[a], ds[a], recipients[x], text, first + x);
    }
  }
}
