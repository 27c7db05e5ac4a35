/**
  The client's event trigger: events are handed to the listener at once, or kept until
  there is one. A listener is named by a value of type `L`; calling it is recorded in
  `calls`. Listeners do not call back into the trigger while they are being called.
*/
module EventSpec {
  import opened Basics

  /** `rejected` holds the events whose dispatch found no listener to call: their
      promises are rejected and the arguments reach nobody. */
  datatype State<L, T> = State(listener: Option<L>, queued: seq<T>, calls: seq<(L, T)>, rejected: seq<T>)

  datatype Op<L, T> = On(l: Option<L>) | Off | Trigger(x: T)

  function Initial<L, T>(): State<L, T> {
    State(None, [], [], [])
  }

  function Dispatch<L, T>(s: State<L, T>, x: T): State<L, T> {
    if s.listener.Some? then s.(calls := s.calls + [(s.listener.value, x)]) else s.(rejected := s.rejected + [x])
  }

  function DispatchAll<L, T>(s: State<L, T>, xs: seq<T>): State<L, T> {
    if xs == [] then s else Dispatch(DispatchAll(s, xs[..|xs| - 1]), xs[|xs| - 1])
  }

  function Step<L, T>(s: State<L, T>, op: Op<L, T>): State<L, T> {
    match op
    case On(l) => DispatchAll(s.(listener := l), s.queued).(queued := [])
    case Off => s.(listener := None)
    case Trigger(x) => if s.listener.Some? then Dispatch(s, x) else s.(queued := s.queued + [x])
  }

  function Run<L, T>(ops: seq<Op<L, T>>): State<L, T> {
    if ops == [] then Initial() else Step(Run(ops[..|ops| - 1]), ops[|ops| - 1])
  }

  function Triggered<L, T>(ops: seq<Op<L, T>>): seq<T> {
    if ops == [] then []
    else
      var rest := Triggered(ops[..|ops| - 1]);
      match ops[|ops| - 1]
      case Trigger(x) => rest + [x]
      case _ => rest
  }

  /** The arguments listeners have been called with. */
  function Passed<L, T>(calls: seq<(L, T)>): (r: seq<T>)
    ensures |r| == |calls|
  {
    seq(|calls|, i requires 0 <= i < |calls| => calls[i].1)
  }

  lemma {:induction false} DispatchAllEffect<L, T>(s: State<L, T>, xs: seq<T>)
    ensures
      var s' := DispatchAll(s, xs);
      && s'.listener == s.listener && s'.queued == s.queued
      && (s.listener.Some? ==> Passed(s'.calls) == Passed(s.calls) + xs && s'.rejected == s.rejected)
      && (s.listener.None? ==> s'.calls == s.calls && s'.rejected == s.rejected + xs)
  {
    if xs != [] {
      DispatchAllEffect(s, xs[..|xs| - 1]);
      assert xs == xs[..|xs| - 1] + [xs[|xs| - 1]];
      if s.listener.Some? {
        PassedSnoc(DispatchAll(s, xs[..|xs| - 1]).calls, s.listener.value, xs[|xs| - 1]);
      }
    }
  }

  lemma PassedSnoc<L, T>(calls: seq<(L, T)>, l: L, x: T)
    ensures Passed(calls + [(l, x)]) == Passed(calls) + [x]
  {
  }

  /** No caller installs a null listener over waiting events. */
  ghost predicate NoNullFlush<L, T>(ops: seq<Op<L, T>>) {
    forall i | 0 <= i < |ops| && ops[i] == On(None) :: Run(ops[..i]).queued == []
  }

  lemma NoNullFlushSnoc<L, T>(ops: seq<Op<L, T>>)
    requires ops != []
    ensures NoNullFlush(ops) <==>
      && NoNullFlush(ops[..|ops| - 1])
      && (ops[|ops| - 1] == On(None) ==> Run(ops[..|ops| - 1]).queued == [])
  {
    var n := |ops| - 1;
    assert forall i | 0 <= i < n :: ops[..n][..i] == ops[..i];
    if NoNullFlush(ops) {
      forall i | 0 <= i < n && ops[..n][i] == On(None) ensures Run(ops[..n][..i]).queued == [] {
        assert ops[i] == On(None);
      }
    }
  }

  ghost predicate Invariant<L, T>(s: State<L, T>, triggered: seq<T>) {
    && (s.listener.Some? ==> s.queued == [])
    && |s.calls| + |s.queued| + |s.rejected| == |triggered|
    && (s.rejected == [] ==> Passed(s.calls) + s.queued == triggered)
    && Subsequence(Passed(s.calls) + s.queued, triggered)
  }

  /** One operation, whatever it is. A flush into nobody only deletes the tail. */
  lemma StepKeepsInvariant<L, T>(s: State<L, T>, triggered: seq<T>, op: Op<L, T>)
    requires Invariant(s, triggered)
    ensures Invariant(Step(s, op), triggered + (if op.Trigger? then [op.x] else []))
  {
    var s' := Step(s, op);
    match op
    case On(l) =>
      DispatchAllEffect(s.(listener := l), s.queued);
      assert triggered + [] == triggered;
      assert Passed(s'.calls) + s'.queued == Passed(s'.calls);
      if l.None? {
        SubsequencePrefix(Passed(s.calls), s.queued);
        SubsequenceTransitive(Passed(s.calls), Passed(s.calls) + s.queued, triggered);
        if s.queued == [] {
          assert Passed(s.calls) + s.queued == Passed(s.calls);
        }
      }
    case Off =>
      assert triggered + [] == triggered;
    case Trigger(x) =>
      assert Passed(s'.calls) + s'.queued == (Passed(s.calls) + s.queued) + [x];
      SubsequenceBoth(Passed(s.calls) + s.queued, triggered, x);
  }

  /** Over every run the arguments passed to listeners, followed by those still queued,
      are the arguments triggered, in order and once each, exactly when nobody installs a
      null listener over waiting events; in every case they are a subsequence of them,
      and a listener never sits in front of a non-empty queue. */
  lemma {:induction false} ExactlyOnceIffNoNullFlush<L, T>(ops: seq<Op<L, T>>)
    ensures
      var s := Run(ops);
      && (Passed(s.calls) + s.queued == Triggered(ops) <==> NoNullFlush(ops))
      && Invariant(s, Triggered(ops))
      && (NoNullFlush(ops) <==> s.rejected == [])
  {
    if ops != [] {
      var s, op := Run(ops[..|ops| - 1]), ops[|ops| - 1];
      ExactlyOnceIffNoNullFlush(ops[..|ops| - 1]);
      NoNullFlushSnoc(ops);
      StepKeepsInvariant(s, Triggered(ops[..|ops| - 1]), op);
      assert Triggered(ops) == Triggered(ops[..|ops| - 1]) + (if op.Trigger? then [op.x] else []);
      if op.On? {
        DispatchAllEffect(s.(listener := op.l), s.queued);
      }
    }
  }

  // ---- the fate of every event, read off the calls of the interface ----

  /** The listener after these operations: the last one installed, unless taken away. */
  function Listening<L, T>(ops: seq<Op<L, T>>): Option<L> {
    if ops == [] then None
    else
      match ops[|ops| - 1]
      case On(l) => l
      case Off => None
      case Trigger(_) => Listening(ops[..|ops| - 1])
  }

  /** What the first installation among these operations installs. */
  function FirstInstalled<L, T>(ops: seq<Op<L, T>>): Option<Option<L>> {
    if ops == [] then None
    else if FirstInstalled(ops[..|ops| - 1]).Some? then FirstInstalled(ops[..|ops| - 1])
    else if ops[|ops| - 1].On? then Some(ops[|ops| - 1].l)
    else None
  }

  /** An event goes to the listener of the moment, or else to the first one installed later. */
  datatype Fate<L> = Called(listener: L) | Waiting | Refused

  function FateOf<L, T>(ops: seq<Op<L, T>>, i: nat): Fate<L>
    requires i < |ops|
  {
    var now := Listening(ops[..i]);
    if now.Some? then Called(now.value)
    else
      match FirstInstalled(ops[i + 1..])
      case None => Waiting
      case Some(l) => if l.Some? then Called(l.value) else Refused
  }

  /** The events among the first `n` operations with their fates, in order. */
  function Fates<L, T>(ops: seq<Op<L, T>>, n: nat): seq<(Fate<L>, T)>
    requires n <= |ops|
  {
    if n == 0 then []
    else if ops[n - 1].Trigger? then Fates(ops, n - 1) + [(FateOf(ops, n - 1), ops[n - 1].x)]
    else Fates(ops, n - 1)
  }

  function CallsIn<L, T>(fs: seq<(Fate<L>, T)>): seq<(L, T)> {
    if fs == [] then []
    else
      var rest := CallsIn(fs[..|fs| - 1]);
      match fs[|fs| - 1].0
      case Called(l) => rest + [(l, fs[|fs| - 1].1)]
      case _ => rest
  }

  function WaitingIn<L, T>(fs: seq<(Fate<L>, T)>): seq<T> {
    if fs == [] then []
    else if fs[|fs| - 1].0.Waiting? then WaitingIn(fs[..|fs| - 1]) + [fs[|fs| - 1].1]
    else WaitingIn(fs[..|fs| - 1])
  }

  function RefusedIn<L, T>(fs: seq<(Fate<L>, T)>): seq<T> {
    if fs == [] then []
    else if fs[|fs| - 1].0.Refused? then RefusedIn(fs[..|fs| - 1]) + [fs[|fs| - 1].1]
    else RefusedIn(fs[..|fs| - 1])
  }

  /** What one more operation does to a fate that is known. */
  function Later<L, T>(f: Fate<L>, op: Op<L, T>): Fate<L> {
    if f.Waiting? && op.On? then if op.l.Some? then Called(op.l.value) else Refused else f
  }

  function AllLater<L, T>(fs: seq<(Fate<L>, T)>, op: Op<L, T>): (r: seq<(Fate<L>, T)>)
    ensures |r| == |fs|
  {
    seq(|fs|, i requires 0 <= i < |fs| => (Later(fs[i].0, op), fs[i].1))
  }

  lemma FateLater<L, T>(ops: seq<Op<L, T>>, i: nat)
    requires ops != [] && i < |ops| - 1
    ensures FateOf(ops, i) == Later(FateOf(ops[..|ops| - 1], i), ops[|ops| - 1])
  {
    var n := |ops| - 1;
    assert ops[..n][..i] == ops[..i];
    assert ops[i + 1..][..|ops[i + 1..]| - 1] == ops[..n][i + 1..];
  }

  lemma {:induction false} FatesLater<L, T>(ops: seq<Op<L, T>>, n: nat)
    requires ops != [] && n <= |ops| - 1
    ensures Fates(ops, n) == AllLater(Fates(ops[..|ops| - 1], n), ops[|ops| - 1])
  {
    if n > 0 {
      FatesLater(ops, n - 1);
      if ops[n - 1].Trigger? {
        FateLater(ops, n - 1);
      }
    }
  }

  lemma FatesOneMore<L, T>(ops: seq<Op<L, T>>)
    requires ops != []
    ensures
      var n := |ops| - 1;
      var fs := AllLater(Fates(ops[..n], n), ops[n]);
      Fates(ops, n + 1) == if ops[n].Trigger? then fs + [(FateOf(ops, n), ops[n].x)] else fs
  {
    FatesLater(ops, |ops| - 1);
  }

  /** Nothing is called after something that still waits. */
  ghost predicate WaitingLast<L, T>(fs: seq<(Fate<L>, T)>) {
    forall i, j | 0 <= i < j < |fs| && fs[i].0.Waiting? :: fs[j].0.Waiting?
  }

  lemma FatesSnoc<L, T>(fs: seq<(Fate<L>, T)>, f: Fate<L>, x: T)
    ensures CallsIn(fs + [(f, x)]) == CallsIn(fs) + (if f.Called? then [(f.listener, x)] else [])
    ensures WaitingIn(fs + [(f, x)]) == WaitingIn(fs) + (if f.Waiting? then [x] else [])
    ensures RefusedIn(fs + [(f, x)]) == RefusedIn(fs) + (if f.Refused? then [x] else [])
  {
    assert (fs + [(f, x)])[..|fs|] == fs;
  }

  lemma LaterSnoc<L, T>(fs: seq<(Fate<L>, T)>, f: Fate<L>, x: T, op: Op<L, T>)
    ensures AllLater(fs + [(f, x)], op) == AllLater(fs, op) + [(Later(f, op), x)]
  {
  }

  lemma {:induction false} NotInstalledLater<L, T>(fs: seq<(Fate<L>, T)>, op: Op<L, T>)
    requires !op.On?
    ensures AllLater(fs, op) == fs
  {
  }

  /** An installation turns all that waits into calls of the listener, or into refusals. */
  lemma {:induction false} InstalledLater<L, T>(fs: seq<(Fate<L>, T)>, l: Option<L>)
    requires WaitingLast(fs)
    ensures
      var gs, w := AllLater(fs, On(l)), WaitingIn(fs);
      && WaitingIn(gs) == [] && (forall i | 0 <= i < |gs| :: !gs[i].0.Waiting?)
      && CallsIn(gs) == CallsIn(fs) + (if l.Some? then Tagged(l.value, w) else [])
      && RefusedIn(gs) == RefusedIn(fs) + (if l.None? then w else [])
  {
    if fs != [] {
      var n := |fs| - 1;
      var before, f, x := fs[..n], fs[n].0, fs[n].1;
      assert fs == before + [(f, x)];
      InstalledLater(before, l);
      LaterSnoc(before, f, x, On(l));
      FatesSnoc(before, f, x);
      FatesSnoc(AllLater(before, On(l)), Later(f, Op<L, T>.On(l)), x);
      if !f.Waiting? {
        NoneWaiting(before);
      } else {
        OneMoreWaits(CallsIn(before), RefusedIn(before), WaitingIn(before), x, l);
      }
    }
  }

  lemma OneMoreWaits<L, T>(calls: seq<(L, T)>, refused: seq<T>, w: seq<T>, x: T, l: Option<L>)
    ensures l.Some? ==> calls + Tagged(l.value, w) + [(l.value, x)] == calls + Tagged(l.value, w + [x])
    ensures refused + w + [x] == refused + (w + [x])
  {
  }

  lemma {:induction false} NoneWaiting<L, T>(fs: seq<(Fate<L>, T)>)
    requires forall i | 0 <= i < |fs| :: !fs[i].0.Waiting?
    ensures WaitingIn(fs) == []
  {
    if fs != [] {
      NoneWaiting(fs[..|fs| - 1]);
    }
  }

  function Tagged<L, T>(l: L, xs: seq<T>): (r: seq<(L, T)>)
    ensures |r| == |xs|
  {
    seq(|xs|, i requires 0 <= i < |xs| => (l, xs[i]))
  }

  lemma {:induction false} DispatchAllTagged<L, T>(s: State<L, T>, xs: seq<T>)
    ensures
      var r := DispatchAll(s, xs);
      r == if s.listener.Some? then s.(calls := s.calls + Tagged(s.listener.value, xs))
           else s.(rejected := s.rejected + xs)
  {
    if xs != [] {
      DispatchAllTagged(s, xs[..|xs| - 1]);
      assert xs == xs[..|xs| - 1] + [xs[|xs| - 1]];
    }
  }

  /** The state is what the fates say. */
  ghost predicate FatesHold<L, T>(s: State<L, T>, listening: Option<L>, fs: seq<(Fate<L>, T)>) {
    && s.listener == listening && (s.listener.Some? ==> s.queued == []) && WaitingLast(fs)
    && s.calls == CallsIn(fs) && s.queued == WaitingIn(fs) && s.rejected == RefusedIn(fs)
  }

  lemma StepKeepsFates<L, T>(s: State<L, T>, listening: Option<L>, fs: seq<(Fate<L>, T)>, op: Op<L, T>)
    requires FatesHold(s, listening, fs)
    ensures
      var now := match op case On(l) => l case Off => None case Trigger(_) => listening;
      var f := if listening.Some? then Called(listening.value) else Waiting;
      var gs := AllLater(fs, op);
      FatesHold(Step(s, op), now, if op.Trigger? then gs + [(f, op.x)] else gs)
  {
    match op
    case On(l) =>
      DispatchAllTagged(s.(listener := l), s.queued);
      InstalledLater(fs, l);
    case Off => NotInstalledLater(fs, op);
    case Trigger(x) =>
      NotInstalledLater(fs, op);
      FatesSnoc(fs, if listening.Some? then Called(listening.value) else Waiting, x);
      if listening.Some? {
        WaitingNone(fs);
      }
  }

  lemma {:induction false} WaitingNone<L, T>(fs: seq<(Fate<L>, T)>)
    requires WaitingIn(fs) == []
    ensures forall i | 0 <= i < |fs| :: !fs[i].0.Waiting?
  {
    if fs != [] {
      WaitingNone(fs[..|fs| - 1]);
    }
  }

  /** Over every run, read off the calls alone: the listener is the one last installed and not
      taken away; and every event was passed, in order, to the listener of its moment or else
      to the first one installed after it, or was refused when that was none, or waits. */
  lemma {:induction false} EveryEventHasItsFate<L, T>(ops: seq<Op<L, T>>)
    ensures FatesHold(Run(ops), Listening(ops), Fates(ops, |ops|))
  {
    if ops != [] {
      var n := |ops| - 1;
      EveryEventHasItsFate(ops[..n]);
      StepKeepsFates(Run(ops[..n]), Listening(ops[..n]), Fates(ops[..n], n), ops[n]);
      FatesOneMore(ops);
      assert ops[n + 1..] == [];
    }
  }
}

module EventTrigger {
  import opened Basics
  import opened EventSpec

  class PromiseEventTrigger<L, T> {
    var listener: Option<L>
    var eventqueue: seq<T>
    // the calls made to listeners, and the events whose promise was rejected
    var calls: seq<(L, T)>
    var rejected: seq<T>

    ghost function View(): State<L, T>
      reads this
    {
      State(listener, eventqueue, calls, rejected)
    }

    constructor ()
      ensures View() == Initial()
    {
      listener, eventqueue, calls, rejected := None, [], [], [];
    }

    method On(l: Option<L>)
      modifies this
      ensures View() == Step(old(View()), EventSpec.On(l))
    {
      listener := l;
      if |eventqueue| > 0 {
        for i := 0 to |eventqueue|
          invariant eventqueue == old(eventqueue)
          invariant View() == DispatchAll(old(View()).(listener := l), eventqueue[..i])
        {
          Dispatch(eventqueue[i]);
          assert eventqueue[..i + 1][..i] == eventqueue[..i];
        }
        assert eventqueue[..|eventqueue|] == eventqueue;
        eventqueue := [];
      }
    }

    method Off()
      modifies this`listener
      ensures View() == Step(old(View()), EventSpec.Off)
    {
      listener := None;
    }

    method Trigger(args: T)
      modifies this
      ensures View() == Step(old(View()), EventSpec.Trigger(args))
    {
      if listener.Some? {
        Dispatch(args);
      } else {
        eventqueue := eventqueue + [args];
      }
    }

    method Dispatch(x: T)
      modifies this`calls, this`rejected
      ensures View() == EventSpec.Dispatch(old(View()), x)
    {
      if listener.Some? {
        calls := calls + [(listener.value, x)];
      } else {
        rejected := rejected + [x];
      }
    }
  }
}
