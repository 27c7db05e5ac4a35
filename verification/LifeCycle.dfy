/**
  The lifecycle manager: a list of values with deadlines and a channel on which expired
  values are emitted. `LifeCycleSpec` is the manager as a transition system whose cleanup
  may be interrupted between any two of its steps; `LifeCycle` is the list code.
*/
module LifeCycleSpec {
  import opened Basics

  /** One added value. `id` counts additions, so equal values stay apart. */
  datatype Item<+V> = Item(id: nat, value: V)

  datatype Entry<+V> = Entry(item: Item<V>, expire: int)

  /** What the processing loop is doing: nothing, walking the list, or waiting for room on
      the expiry channel with an entry it has already unlinked. */
  datatype Phase<+V> = Idle | Scanning(now: int, pos: nat) | Emitting(now: int, pos: nat, entry: Entry<V>)

  /** `removed`, `emitted` and `received` are history. */
  datatype State<V> = State(
    live: seq<Entry<V>>,
    phase: Phase<V>,
    channel: seq<V>,
    room: nat,
    nextId: nat,
    removed: seq<Item<V>>,
    emitted: seq<Emission<V>>,
    received: seq<V>)

  /** An entry sent on the channel, with the time of the cleanup that found it expired. */
  datatype Emission<+V> = Emission(entry: Entry<V>, now: int)

  datatype Step<+V> =
    | Add(value: V, lifeTime: int, at: int)
    | Remove(value: V)
    | StartCleanup(at: int)
    | Scan
    | Emit
    | Receive
    | Renew(id: nat, lifeTime: int, at: int)

  function Initial<V>(room: nat): State<V> {
    State([], Idle, [], room, 0, [], [], [])
  }

  /** The position of the first entry with a given value. */
  function FirstMatch<V(==)>(es: seq<Entry<V>>, v: V): (r: Option<nat>)
    ensures r.Some? ==>
      r.value < |es| && es[r.value].item.value == v && forall i | 0 <= i < r.value :: es[i].item.value != v
    ensures r.None? ==> forall i | 0 <= i < |es| :: es[i].item.value != v
  {
    if es == [] then None
    else if es[0].item.value == v then Some(0)
    else match FirstMatch(es[1..], v) case None => None case Some(i) => Some(i + 1)
  }

  /** The deadline of a live entry may be moved at any moment, also during a cleanup. */
  function Postpone<V>(es: seq<Entry<V>>, id: nat, expire: int): (r: seq<Entry<V>>)
    ensures |r| == |es| && forall i | 0 <= i < |es| :: r[i].item == es[i].item
  {
    seq(|es|, i requires 0 <= i < |es| => if es[i].item.id == id then es[i].(expire := expire) else es[i])
  }

  // ---- the steps; one that is not enabled changes nothing ----

  function AddStep<V>(s: State<V>, v: V, life: int, t: int): State<V> {
    if s.phase.Idle? then s.(live := s.live + [Entry(Item(s.nextId, v), t + life)], nextId := s.nextId + 1) else s
  }

  function RemoveStep<V(==)>(s: State<V>, v: V): State<V> {
    match FirstMatch(s.live, v)
    case Some(i) =>
      if s.phase.Idle? then s.(live := Cut(s.live, i), removed := s.removed + [s.live[i].item]) else s
    case None => s
  }

  function StartStep<V>(s: State<V>, t: int): State<V> {
    if s.phase.Idle? then s.(phase := Scanning(t, 0)) else s
  }

  function ScanStep<V>(s: State<V>): State<V> {
    if !s.phase.Scanning? then s
    else if s.phase.pos >= |s.live| then s.(phase := Idle)
    else
      var e := s.live[s.phase.pos];
      if e.expire < s.phase.now
      then s.(live := Cut(s.live, s.phase.pos), phase := Emitting(s.phase.now, s.phase.pos, e))
      else s.(phase := Scanning(s.phase.now, s.phase.pos + 1))
  }

  /** A channel without a buffer hands the value over to whoever listens. */
  function EmitStep<V>(s: State<V>): State<V> {
    if !s.phase.Emitting? || 0 < s.room <= |s.channel| then s
    else
      var v := s.phase.entry.item.value;
      s.(channel := if s.room == 0 then s.channel else s.channel + [v],
         received := if s.room == 0 then s.received + [v] else s.received,
         emitted := s.emitted + [Emission(s.phase.entry, s.phase.now)],
         phase := Scanning(s.phase.now, s.phase.pos))
  }

  function ReceiveStep<V>(s: State<V>): State<V> {
    if s.channel != [] then s.(channel := s.channel[1..], received := s.received + [s.channel[0]]) else s
  }

  function RenewStep<V>(s: State<V>, id: nat, expire: int): State<V> {
    s.(live := Postpone(s.live, id, expire))
  }

  function Next<V(==)>(s: State<V>, step: Step<V>): State<V> {
    match step
    case Add(v, life, t) => AddStep(s, v, life, t)
    case Remove(v) => RemoveStep(s, v)
    case StartCleanup(t) => StartStep(s, t)
    case Scan => ScanStep(s)
    case Emit => EmitStep(s)
    case Receive => ReceiveStep(s)
    case Renew(id, life, t) => RenewStep(s, id, t + life)
  }

  function Run<V(==)>(room: nat, steps: seq<Step<V>>): State<V> {
    if steps == [] then Initial(room) else Next(Run(room, steps[..|steps| - 1]), steps[|steps| - 1])
  }

  /** What a step adds: the loop takes an add request only between cleanups. */
  function NewItems<V>(s: State<V>, step: Step<V>): seq<Item<V>> {
    if step.Add? && s.phase.Idle? then [Item(s.nextId, step.value)] else []
  }

  /** Everything ever added, read off the run, in order. */
  function Added<V(==)>(room: nat, steps: seq<Step<V>>): seq<Item<V>> {
    if steps == [] then []
    else Added(room, steps[..|steps| - 1]) + NewItems(Run(room, steps[..|steps| - 1]), steps[|steps| - 1])
  }

  function Items<V>(es: seq<Entry<V>>): (r: seq<Item<V>>)
    ensures |r| == |es|
  {
    seq(|es|, i requires 0 <= i < |es| => es[i].item)
  }

  function EmittedItems<V>(es: seq<Emission<V>>): (r: seq<Item<V>>)
    ensures |r| == |es|
  {
    seq(|es|, i requires 0 <= i < |es| => es[i].entry.item)
  }

  function EmittedValues<V>(es: seq<Emission<V>>): (r: seq<V>)
    ensures |r| == |es|
  {
    seq(|es|, i requires 0 <= i < |es| => es[i].entry.item.value)
  }

  /** The entry a blocked cleanup is about to emit. */
  function AboutToEmit<V>(p: Phase<V>): seq<Item<V>> {
    if p.Emitting? then [p.entry.item] else []
  }

  /** Everything ever added is in exactly one place. */
  ghost function Accounted<V>(s: State<V>): multiset<Item<V>> {
    multiset(Items(s.live)) + multiset(s.removed) + multiset(AboutToEmit(s.phase)) + multiset(EmittedItems(s.emitted))
  }

  lemma ItemsCut<V>(es: seq<Entry<V>>, i: nat)
    requires i < |es|
    ensures multiset(Items(es)) == multiset(Items(Cut(es, i))) + multiset{es[i].item}
  {
    var a := Items(es);
    assert a == a[..i] + [a[i]] + a[i + 1..];
    assert Items(Cut(es, i)) == a[..i] + a[i + 1..];
  }

  lemma ItemsAppend<V>(es: seq<Entry<V>>, e: Entry<V>)
    ensures multiset(Items(es + [e])) == multiset(Items(es)) + multiset{e.item}
  {
    assert Items(es + [e]) == Items(es) + [e.item];
  }

  lemma EmittedAppend<V>(es: seq<Emission<V>>, e: Emission<V>)
    ensures multiset(EmittedItems(es + [e])) == multiset(EmittedItems(es)) + multiset{e.entry.item}
    ensures EmittedValues(es + [e]) == EmittedValues(es) + [e.entry.item.value]
  {
    assert EmittedItems(es + [e]) == EmittedItems(es) + [e.entry.item];
  }

  lemma ItemsPostpone<V>(es: seq<Entry<V>>, id: nat, expire: int)
    ensures Items(Postpone(es, id, expire)) == Items(es)
  {
  }

  /** One step moves items between the places; only an addition brings a new one in. */
  lemma NextAccounts<V>(s: State<V>, step: Step<V>)
    ensures Accounted(Next(s, step)) == Accounted(s) + multiset(NewItems(s, step))
  {
    var r := Next(s, step);
    if step.Add? {
      AddAccounts(s, step.value, step.lifeTime, step.at);
    } else if step.Remove? || step.Renew? {
      RequestAccounts(s, step, r);
    } else {
      CleanupAccounts(s, step, r);
    }
  }

  lemma RequestAccounts<V>(s: State<V>, step: Step<V>, r: State<V>)
    requires (step.Remove? && r == RemoveStep(s, step.value))
             || (step.Renew? && r == RenewStep(s, step.id, step.at + step.lifeTime))
    ensures Accounted(r) == Accounted(s)
  {
    if step.Remove? {
      RemoveAccounts(s, step.value);
    } else {
      RenewAccounts(s, step.id, step.at + step.lifeTime);
    }
  }

  lemma CleanupAccounts<V>(s: State<V>, step: Step<V>, r: State<V>)
    requires (step.StartCleanup? && r == StartStep(s, step.at)) || (step.Scan? && r == ScanStep(s))
             || (step.Emit? && r == EmitStep(s)) || (step.Receive? && r == ReceiveStep(s))
    ensures Accounted(r) == Accounted(s)
  {
    if step.StartCleanup? {
      StartAccounts(s, step.at);
    } else if step.Scan? {
      ScanAccounts(s);
    } else if step.Emit? {
      EmitAccounts(s);
    } else {
      ReceiveAccounts(s);
    }
  }

  lemma StartAccounts<V>(s: State<V>, t: int)
    ensures Accounted(StartStep(s, t)) == Accounted(s)
  {
  }

  lemma ReceiveAccounts<V>(s: State<V>)
    ensures Accounted(ReceiveStep(s)) == Accounted(s)
  {
  }

  lemma RenewAccounts<V>(s: State<V>, id: nat, expire: int)
    ensures Accounted(RenewStep(s, id, expire)) == Accounted(s)
  {
    ItemsPostpone(s.live, id, expire);
  }

  lemma AddAccounts<V>(s: State<V>, v: V, life: int, t: int)
    ensures Accounted(AddStep(s, v, life, t)) == Accounted(s) + multiset(NewItems(s, Add(v, life, t)))
  {
    ItemsAppend(s.live, Entry(Item(s.nextId, v), t + life));
  }

  lemma RemoveAccounts<V>(s: State<V>, v: V)
    ensures Accounted(RemoveStep(s, v)) == Accounted(s)
  {
    var m := FirstMatch(s.live, v);
    if m.Some? {
      ItemsCut(s.live, m.value);
    }
  }

  lemma ScanAccounts<V>(s: State<V>)
    ensures Accounted(ScanStep(s)) == Accounted(s)
  {
    if s.phase.Scanning? && s.phase.pos < |s.live| && s.live[s.phase.pos].expire < s.phase.now {
      ItemsCut(s.live, s.phase.pos);
    }
  }

  lemma EmitAccounts<V>(s: State<V>)
    ensures Accounted(EmitStep(s)) == Accounted(s)
  {
    if s.phase.Emitting? {
      EmittedAppend(s.emitted, Emission(s.phase.entry, s.phase.now));
    }
  }

  /** The live entries stand in the order in which they were added. */
  ghost predicate InOrderOfAddition<V>(live: seq<Entry<V>>, nextId: nat) {
    && (forall i, j | 0 <= i < j < |live| :: live[i].item.id < live[j].item.id)
    && (forall i | 0 <= i < |live| :: live[i].item.id < nextId)
  }

  lemma CutInOrder<V>(live: seq<Entry<V>>, nextId: nat, p: nat)
    requires InOrderOfAddition(live, nextId) && p < |live|
    ensures InOrderOfAddition(Cut(live, p), nextId)
  {
  }

  lemma NextInOrder<V>(s: State<V>, step: Step<V>)
    requires InOrderOfAddition(s.live, s.nextId)
    ensures InOrderOfAddition(Next(s, step).live, Next(s, step).nextId)
  {
    match step
    case Remove(v) =>
      match FirstMatch(s.live, v) {
        case None =>
        case Some(i) => CutInOrder(s.live, s.nextId, i);
      }
    case Scan =>
      if s.phase.Scanning? && s.phase.pos < |s.live| {
        CutInOrder(s.live, s.nextId, s.phase.pos);
      }
    case _ =>
  }

  /** Whatever was sent, or is about to be, had a deadline before its cleanup's time; the
      channel loses nothing and keeps the order. */
  ghost predicate EmissionsRight<V>(s: State<V>) {
    && (forall i | 0 <= i < |s.emitted| :: s.emitted[i].entry.expire < s.emitted[i].now)
    && (s.phase.Emitting? ==> s.phase.entry.expire < s.phase.now)
    && s.received + s.channel == EmittedValues(s.emitted)
    && |s.channel| <= s.room
  }

  lemma NextEmissions<V>(s: State<V>, step: Step<V>)
    requires EmissionsRight(s)
    ensures EmissionsRight(Next(s, step))
  {
    if step.Emit? && s.phase.Emitting? {
      EmittedAppend(s.emitted, Emission(s.phase.entry, s.phase.now));
    }
  }

  /** The books of a state against the list of everything added so far. */
  ghost predicate Balanced<V>(s: State<V>, added: seq<Item<V>>) {
    && multiset(added) == Accounted(s)
    && InOrderOfAddition(s.live, s.nextId)
    && EmissionsRight(s)
  }

  lemma NextBalanced<V>(s: State<V>, step: Step<V>, added: seq<Item<V>>)
    requires Balanced(s, added)
    ensures Balanced(Next(s, step), added + NewItems(s, step))
  {
    NextAccounts(s, step);
    NextInOrder(s, step);
    NextEmissions(s, step);
  }

  /** Conservation over every run, with cleanups interrupted anywhere and deadlines moved
      under them: what was added is what is live, removed, about to be emitted or emitted;
      what is live keeps the order of addition; only expired entries are emitted. */
  lemma {:induction false} Conservation<V>(room: nat, steps: seq<Step<V>>)
    ensures Balanced(Run(room, steps), Added(room, steps))
  {
    if steps != [] {
      Conservation(room, steps[..|steps| - 1]);
      NextBalanced(Run(room, steps[..|steps| - 1]), steps[|steps| - 1], Added(room, steps[..|steps| - 1]));
    }
  }

  lemma {:induction false} AddedIds<V>(room: nat, steps: seq<Step<V>>)
    ensures
      var added := Added(room, steps);
      && |added| == Run(room, steps).nextId
      && (forall i | 0 <= i < |added| :: added[i].id == i)
  {
    if steps != [] {
      AddedIds(room, steps[..|steps| - 1]);
    }
  }

  lemma {:induction false} OneOccurrence<V>(added: seq<Item<V>>, x: Item<V>)
    requires forall i | 0 <= i < |added| :: added[i].id == i
    ensures multiset(added)[x] <= 1
    ensures multiset(added)[x] == 1 ==> x.id < |added|
  {
    if added != [] {
      var n := |added| - 1;
      OneOccurrence(added[..n], x);
      assert added == added[..n] + [added[n]];
    }
  }

  /** No entry is emitted twice, and none that was emitted is still live or was removed. */
  lemma EmittedAtMostOnce<V>(room: nat, steps: seq<Step<V>>)
    ensures
      var s := Run(room, steps);
      NothingTwice(EmittedItems(s.emitted), Items(s.live), s.removed)
  {
    Conservation(room, steps);
    AddedIds(room, steps);
    BalancedOnce(Run(room, steps), Added(room, steps));
  }

  lemma BalancedOnce<V>(s: State<V>, all: seq<Item<V>>)
    requires Balanced(s, all) && forall i | 0 <= i < |all| :: all[i].id == i
    ensures NothingTwice(EmittedItems(s.emitted), Items(s.live), s.removed)
  {
    var out, live := EmittedItems(s.emitted), Items(s.live);
    assert multiset(out) + multiset(live) + multiset(s.removed) <= multiset(all);
    forall i | 0 <= i < |out| ensures out[i] !in live && out[i] !in s.removed {
      OneOccurrence(all, out[i]);
      assert out[i] in multiset(out);
    }
    forall i, j | 0 <= i < j < |out| ensures out[i] != out[j] {
      OneOccurrence(all, out[i]);
      if out[i] == out[j] {
        TwoPlaces(out, i, j);
      }
    }
  }

  /** No entry of `out` occurs in it twice, or in one of the other two lists. */
  ghost predicate NothingTwice<T>(out: seq<T>, live: seq<T>, removed: seq<T>) {
    && (forall i, j | 0 <= i < j < |out| :: out[i] != out[j])
    && (forall i | 0 <= i < |out| :: out[i] !in live && out[i] !in removed)
  }

  lemma TwoPlaces<T>(s: seq<T>, i: nat, j: nat)
    requires i < j < |s| && s[i] == s[j]
    ensures multiset(s)[s[i]] >= 2
  {
    assert s == s[..j] + [s[j]] + s[j + 1..];
    assert s[..j][i] in multiset(s[..j]);
  }

  // ---- deadlines, read off the requests ----

  ghost predicate IsLive<V>(s: State<V>, id: nat) {
    exists i :: 0 <= i < |s.live| && s.live[i].item.id == id
  }

  /** The deadline that this step gives to item `id`: it is added, or renewed while live. */
  ghost function NewDeadline<V>(s: State<V>, step: Step<V>, id: nat): Option<int> {
    match step
    case Add(_, life, at) => if s.phase.Idle? && s.nextId == id then Some(at + life) else None
    case Renew(id', life, at) => if id' == id && IsLive(s, id) then Some(at + life) else None
    case _ => None
  }

  /** The last one of these. */
  ghost function Deadline<V>(room: nat, steps: seq<Step<V>>, id: nat): Option<int> {
    if steps == [] then None
    else
      var n := |steps| - 1;
      var now := NewDeadline(Run(room, steps[..n]), steps[n], id);
      if now.Some? then now else Deadline(room, steps[..n], id)
  }

  /** The time of the last cleanup that was started. */
  function CleanupTime<V(==)>(room: nat, steps: seq<Step<V>>): Option<int> {
    if steps == [] then None
    else
      var n := |steps| - 1;
      if steps[n].StartCleanup? && Run(room, steps[..n]).phase.Idle? then Some(steps[n].at)
      else CleanupTime(room, steps[..n])
  }

  /** Wherever the item is, live, unlinked or emitted, it has this deadline. */
  ghost predicate HasDeadline<V>(s: State<V>, id: nat, deadline: Option<int>) {
    && (forall i | 0 <= i < |s.live| && s.live[i].item.id == id :: deadline == Some(s.live[i].expire))
    && (s.phase.Emitting? && s.phase.entry.item.id == id ==> deadline == Some(s.phase.entry.expire))
    && (forall i | 0 <= i < |s.emitted| && s.emitted[i].entry.item.id == id ::
          deadline == Some(s.emitted[i].entry.expire))
  }

  /** An item that has left the list is not in it, and its number is not given again. */
  ghost predicate Gone<V>(s: State<V>, id: nat) {
    id < s.nextId && forall i | 0 <= i < |s.live| :: s.live[i].item.id != id
  }

  ghost predicate AllGone<V>(s: State<V>) {
    && InOrderOfAddition(s.live, s.nextId)
    && (s.phase.Emitting? ==> Gone(s, s.phase.entry.item.id))
    && (forall i | 0 <= i < |s.emitted| :: Gone(s, s.emitted[i].entry.item.id))
  }

  lemma GoneStays<V>(s: State<V>, step: Step<V>, id: nat)
    requires Gone(s, id)
    ensures Gone(Next(s, step), id)
  {
  }

  lemma CutGone<V>(live: seq<Entry<V>>, nextId: nat, p: nat)
    requires InOrderOfAddition(live, nextId) && p < |live|
    ensures forall i | 0 <= i < |Cut(live, p)| :: Cut(live, p)[i].item.id != live[p].item.id
  {
  }

  lemma NextAllGone<V>(s: State<V>, step: Step<V>)
    requires AllGone(s)
    ensures AllGone(Next(s, step))
  {
    var r := Next(s, step);
    NextInOrder(s, step);
    if s.phase.Emitting? {
      GoneStays(s, step, s.phase.entry.item.id);
    }
    forall i | 0 <= i < |s.emitted| ensures Gone(r, s.emitted[i].entry.item.id) {
      GoneStays(s, step, s.emitted[i].entry.item.id);
    }
    if step.Scan? && s.phase.Scanning? && s.phase.pos < |s.live| {
      CutGone(s.live, s.nextId, s.phase.pos);
    }
  }

  lemma NextHasDeadline<V>(s: State<V>, step: Step<V>, id: nat, deadline: Option<int>)
    requires AllGone(s) && HasDeadline(s, id, deadline)
    ensures
      var now := NewDeadline(s, step, id);
      HasDeadline(Next(s, step), id, if now.Some? then now else deadline)
  {
    match step
    case Add(v, life, at) => AddHasDeadline(s, v, life, at, id, deadline);
    case Renew(id', life, at) => RenewHasDeadline(s, id', at + life, id, deadline);
    case Remove(v) => RemoveHasDeadline(s, v, id, deadline);
    case _ => CleanupHasDeadline(s, step, id, deadline);
  }

  lemma AddHasDeadline<V>(s: State<V>, v: V, life: int, at: int, id: nat, deadline: Option<int>)
    requires AllGone(s) && HasDeadline(s, id, deadline)
    ensures HasDeadline(AddStep(s, v, life, at), id, if s.phase.Idle? && s.nextId == id then Some(at + life)
        else deadline)
  {
  }

  lemma RemoveHasDeadline<V>(s: State<V>, v: V, id: nat, deadline: Option<int>)
    requires HasDeadline(s, id, deadline)
    ensures HasDeadline(RemoveStep(s, v), id, deadline)
  {
  }

  lemma CleanupHasDeadline<V>(s: State<V>, step: Step<V>, id: nat, deadline: Option<int>)
    requires HasDeadline(s, id, deadline) && (step.StartCleanup? || step.Scan? || step.Emit? || step.Receive?)
    ensures HasDeadline(Next(s, step), id, deadline)
  {
    match step
    case Scan => ScanHasDeadline(s, id, deadline);
    case Emit => EmitHasDeadline(s, id, deadline);
    case _ =>
  }

  lemma ScanHasDeadline<V>(s: State<V>, id: nat, deadline: Option<int>)
    requires HasDeadline(s, id, deadline)
    ensures HasDeadline(ScanStep(s), id, deadline)
  {
  }

  lemma EmitHasDeadline<V>(s: State<V>, id: nat, deadline: Option<int>)
    requires HasDeadline(s, id, deadline)
    ensures HasDeadline(EmitStep(s), id, deadline)
  {
  }

  lemma RenewHasDeadline<V>(s: State<V>, renewed: nat, expire: int, id: nat, deadline: Option<int>)
    requires AllGone(s) && HasDeadline(s, id, deadline)
    ensures
      HasDeadline(RenewStep(s, renewed, expire), id, if renewed == id && IsLive(s, id) then Some(expire) else deadline)
  {
    var r := RenewStep(s, renewed, expire);
    forall i | 0 <= i < |r.live| && r.live[i].item.id == id
      ensures (if renewed == id && IsLive(s, id) then Some(expire) else deadline) == Some(r.live[i].expire)
    {
      assert s.live[i].item.id == id;
    }
  }

  lemma {:induction false} RunHasDeadline<V>(room: nat, steps: seq<Step<V>>, id: nat)
    ensures AllGone(Run(room, steps)) && HasDeadline(Run(room, steps), id, Deadline(room, steps, id))
  {
    if steps != [] {
      var n := |steps| - 1;
      RunHasDeadline(room, steps[..n], id);
      NextAllGone(Run(room, steps[..n]), steps[n]);
      NextHasDeadline(Run(room, steps[..n]), steps[n], id, Deadline(room, steps[..n], id));
    }
  }

  /** The deadline of every live entry is the one last asked for it; and what was emitted had
      passed the one last asked for it while it was live. */
  ghost predicate OnTime<V>(s: State<V>, deadline: nat -> Option<int>) {
    && (forall i | 0 <= i < |s.live| :: deadline(s.live[i].item.id) == Some(s.live[i].expire))
    && (forall i | 0 <= i < |s.emitted| ::
          deadline(s.emitted[i].entry.item.id).Some? && deadline(s.emitted[i].entry.item.id).value < s.emitted[i].now)
  }

  /** Nothing is emitted early, in any run, by the requests alone: the time of the cleanup is
      after the time of the last addition or renewal of the item plus its lifetime. */
  lemma NothingEmittedEarly<V>(room: nat, steps: seq<Step<V>>)
    ensures OnTime(Run(room, steps), (id: nat) => Deadline(room, steps, id))
  {
    var s := Run(room, steps);
    Conservation(room, steps);
    forall i | 0 <= i < |s.live| ensures Deadline(room, steps, s.live[i].item.id) == Some(s.live[i].expire) {
      RunHasDeadline(room, steps, s.live[i].item.id);
    }
    forall i | 0 <= i < |s.emitted|
      ensures Deadline(room, steps, s.emitted[i].entry.item.id) == Some(s.emitted[i].entry.expire)
    {
      RunHasDeadline(room, steps, s.emitted[i].entry.item.id);
    }
  }

  lemma {:induction false} CleanupHasItsTime<V>(room: nat, steps: seq<Step<V>>)
    ensures
      var s := Run(room, steps);
      !s.phase.Idle? ==> CleanupTime(room, steps) == Some(s.phase.now)
  {
    if steps != [] {
      CleanupHasItsTime(room, steps[..|steps| - 1]);
    }
  }

  /** Emission `i` was made by step `k`, with the time of the cleanup then in progress. */
  ghost predicate EmittedBy<V>(room: nat, steps: seq<Step<V>>, i: nat, k: nat) {
    && k < |steps| && steps[k].Emit? && i < |Run(room, steps).emitted|
    && |Run(room, steps[..k]).emitted| == i
    && CleanupTime(room, steps[..k]) == Some(Run(room, steps).emitted[i].now)
  }

  /** Every emission carries the time at which its cleanup was started. */
  lemma {:induction false} EmittedInACleanup<V>(room: nat, steps: seq<Step<V>>, i: nat) returns (k: nat)
    requires i < |Run(room, steps).emitted|
    ensures EmittedBy(room, steps, i, k)
  {
    var n := |steps| - 1;
    var s := Run(room, steps[..n]);
    CleanupHasItsTime(room, steps[..n]);
    if i < |s.emitted| {
      k := EmittedInACleanup(room, steps[..n], i);
      assert steps[..n][..k] == steps[..k];
    } else {
      k := n;
    }
  }

  /** A remove request takes out exactly the first match and leaves the order of the rest. */
  lemma RemoveTakesFirst<V>(s: State<V>, v: V, i: nat)
    requires s.phase.Idle? && i < |s.live| && s.live[i].item.value == v
    requires forall j | 0 <= j < i :: s.live[j].item.value != v
    ensures Next(s, Remove(v)).live == s.live[..i] + s.live[i + 1..]
    ensures Next(s, Remove(v)).removed == s.removed + [s.live[i].item]
  {
    assert FirstMatch(s.live, v) == Some(i);
  }

  lemma RemoveTakesMatch<V>(s: State<V>, v: V, i: nat)
    requires s.phase.Idle? && FirstMatch(s.live, v) == Some(i)
    ensures RemoveStep(s, v) == s.(live := Cut(s.live, i), removed := s.removed + [s.live[i].item])
  {
  }

  // ---- one cleanup without interference ----

  function Survivors<V>(es: seq<Entry<V>>, now: int): seq<Entry<V>> {
    if es == [] then []
    else if es[0].expire < now then Survivors(es[1..], now)
    else [es[0]] + Survivors(es[1..], now)
  }

  function ExpiredValues<V>(es: seq<Entry<V>>, now: int): seq<V> {
    if es == [] then []
    else if es[0].expire < now then [es[0].item.value] + ExpiredValues(es[1..], now)
    else ExpiredValues(es[1..], now)
  }

  /** One turn of the cursor: the entry at `p` is taken out, or stepped over. */
  lemma CursorStep<V>(es: seq<Entry<V>>, p: nat, now: int)
    requires p < |es|
    ensures es[p].expire < now ==>
      && Cut(es, p)[..p] == es[..p]
      && Survivors(es[p..], now) == Survivors(Cut(es, p)[p..], now)
      && ExpiredValues(es[p..], now) == [es[p].item.value] + ExpiredValues(Cut(es, p)[p..], now)
    ensures es[p].expire >= now ==>
      && es[..p] + Survivors(es[p..], now) == es[..p + 1] + Survivors(es[p + 1..], now)
      && ExpiredValues(es[p..], now) == ExpiredValues(es[p + 1..], now)
  {
  }

  /** Left alone with enough room on the channel, the stepwise cleanup ends with exactly
      the survivors, in order, having emitted exactly the expired values, in order. */
  lemma {:induction false} UninterruptedCleanup<V>(s: State<V>) returns (steps: seq<Step<V>>)
    requires s.phase.Scanning? && s.phase.pos <= |s.live|
    requires |s.channel| + |s.live| - s.phase.pos <= s.room
    ensures
      var s' := Follow(s, steps);
      && s'.phase.Idle?
      && s'.live == s.live[..s.phase.pos] + Survivors(s.live[s.phase.pos..], s.phase.now)
      && s'.channel == s.channel + ExpiredValues(s.live[s.phase.pos..], s.phase.now)
    decreases |s.live| - s.phase.pos
  {
    var p := s.phase.pos;
    if p == |s.live| {
      steps := [Scan];
      assert Follow(s, steps) == Next(s, Scan);
    } else {
      CursorStep(s.live, p, s.phase.now);
      if s.live[p].expire < s.phase.now {
        var s1 := Next(s, Scan);
        var s2 := Next(s1, Emit);
        var rest := UninterruptedCleanup(s2);
        steps := [Scan, Emit] + rest;
        assert steps[1..] == [Emit] + rest && steps[1..][1..] == rest;
        assert Follow(s, steps) == Follow(s1, steps[1..]) == Follow(s2, rest);
      } else {
        var s1 := Next(s, Scan);
        var rest := UninterruptedCleanup(s1);
        steps := [Scan] + rest;
        assert steps[1..] == rest;
      }
    }
  }

  /** One element of a cleanup, with somebody listening where the channel is full. */
  function TurnState<V>(s: State<V>): State<V> {
    var s1 := ScanStep(s);
    if s1.phase.Emitting? then EmitStep(if |s1.channel| == s1.room then ReceiveStep(s1) else s1) else s1
  }

  /** `s` is some turns into a cleanup that began in `s0`: the list up to the cursor is done,
      and what was sent is the expired values so far. */
  ghost predicate MidCleanup<V>(s: State<V>, s0: State<V>, now: int) {
    && s.phase.Scanning? && s.phase.now == now && s.phase.pos <= |s.live|
    && |s.channel| <= s.room && s.removed == s0.removed && s.nextId == s0.nextId
    && s.live[..s.phase.pos] + Survivors(s.live[s.phase.pos..], now) == Survivors(s0.live, now)
    && s.received + s.channel + ExpiredValues(s.live[s.phase.pos..], now)
       == s0.received + s0.channel + ExpiredValues(s0.live, now)
  }

  lemma TurnMakesProgress<V>(s: State<V>, s0: State<V>, now: int)
    requires MidCleanup(s, s0, now) && s.phase.pos < |s.live|
    ensures
      var r := TurnState(s);
      MidCleanup(r, s0, now) && |r.live| - r.phase.pos < |s.live| - s.phase.pos
  {
    CursorStep(s.live, s.phase.pos, now);
    if s.live[s.phase.pos].expire < now {
      SentMoves(s.received, s.channel, s.live[s.phase.pos].item.value);
    }
  }

  /** Making room by taking the oldest value, and sending one, adds just that one. */
  lemma SentMoves<V>(received: seq<V>, channel: seq<V>, v: V)
    ensures received + (channel + [v]) == received + channel + [v]
    ensures channel != [] ==> received + [channel[0]] + (channel[1..] + [v]) == received + channel + [v]
  {
  }

  lemma CleanupEnds<V>(s: State<V>, s0: State<V>, now: int)
    requires MidCleanup(s, s0, now) && s.phase.pos == |s.live|
    ensures s.live == Survivors(s0.live, now)
    ensures s.received + s.channel == s0.received + s0.channel + ExpiredValues(s0.live, now)
  {
  }

  function Follow<V(==)>(s: State<V>, steps: seq<Step<V>>): State<V>
    decreases |steps|
  {
    if steps == [] then s else Follow(Next(s, steps[0]), steps[1..])
  }
}

module LifeCycle {
  import opened Basics
  import opened LifeCycleSpec

  class LifeCycleElement<V> {
    const id: nat
    const value: V
    const addTime: int
    var expireTime: int

    constructor (id: nat, value: V, addTime: int, expireTime: int)
      ensures this.id == id && this.value == value && this.addTime == addTime && this.expireTime == expireTime
    {
      this.id, this.value, this.addTime, this.expireTime := id, value, addTime, expireTime;
    }

    method Renew(lifeTime: int, now: int)
      modifies this`expireTime
      ensures expireTime == now + lifeTime
    {
      expireTime := now + lifeTime;
    }

    /** An element reports itself expired exactly when a cleanup at that time drops it. */
    predicate Expired(now: int)
      reads this
      ensures Expired(now) <==> Survivors([Entry(Item(id, value), expireTime)], now) == []
    {
      expireTime - now < 0
    }

    ghost function View(): Entry<V>
      reads this
    {
      Entry(Item(id, value), expireTime)
    }
  }

  /** What a list of elements shows. */
  ghost function Entries<V>(es: seq<LifeCycleElement<V>>): (r: seq<Entry<V>>)
    reads es
    ensures |r| == |es| && forall i | 0 <= i < |es| :: r[i] == es[i].View()
  {
    seq(|es|, i requires 0 <= i < |es| reads es => es[i].View())
  }

  class LifeCycleMgr<V(==)> {
    var elements: seq<LifeCycleElement<V>>
    var chExpire: seq<V>
    const room: nat
    var nextId: nat
    // the cleanup in progress: its time, its cursor, and the unlinked element it has to send
    var cleaning: bool
    var cleanupTime: int
    var cursor: LifeCycleElement?<V>
    var sending: LifeCycleElement?<V>
    // where the cursor stands, the entry as it was when unlinked, and history
    ghost var pos: nat
    ghost var entry: Option<Entry<V>>
    ghost var removed: seq<Item<V>>
    ghost var emitted: seq<Emission<V>>
    ghost var received: seq<V>

    ghost predicate Valid()
      reads this
    {
      && InOrder(elements) && Below(elements, nextId) && |chExpire| <= room
      && (cleaning ==> CursorAt(pos))
      && (sending != null ==> entry.Some? && entry.value.item == Item(sending.id, sending.value))
    }

    /** The cursor is the element at that position, or null at the end. */
    ghost predicate CursorAt(k: nat)
      reads this
    {
      k <= |elements| && cursor == if k < |elements| then elements[k] else null
    }

    ghost function Phase(): Phase<V>
      reads this
    {
      if !cleaning then Idle
      else if sending == null || entry.None? then Scanning(cleanupTime, pos)
      else Emitting(cleanupTime, pos, entry.value)
    }

    ghost function View(): State<V>
      reads this, elements
    {
      State(Entries(elements), Phase(), chExpire, room, nextId, removed, emitted, received)
    }

    constructor (room: nat)
      ensures Valid() && View() == Initial(room)
    {
      this.room := room;
      elements, chExpire, nextId, cleaning, cursor, sending := [], [], 0, false, null, null;
      removed, emitted, received, pos, entry := [], [], [], 0, None;
    }

    // ---- the requests ----

    method AddInternal(value: V, lifeTime: int, now: int) returns (element: LifeCycleElement<V>)
      requires Valid() && !cleaning
      modifies this`elements, this`nextId
      ensures Valid() && fresh(element) && elements == old(elements) + [element]
      ensures element.value == value && element.addTime == now && element.expireTime == now + lifeTime
      ensures View() == AddStep(old(View()), value, lifeTime, now)
    {
      element := new LifeCycleElement(nextId, value, now, now + lifeTime);
      elements := elements + [element];
      nextId := nextId + 1;
      assert Entries(elements) == old(Entries(elements)) + [element.View()];
    }

    method RemoveInternal(value: V)
      requires Valid() && !cleaning
      modifies this`elements, this`removed
      ensures Valid() && View() == RemoveStep(old(View()), value)
    {
      ghost var s := View();
      ghost var matched := UnlinkFirstEntry(value);
      if matched.Some? {
        RemoveTakesMatch(s, value, matched.value);
      }
    }

    /** The same, in terms of what the list shows. */
    method UnlinkFirstEntry(value: V) returns (ghost matched: Option<nat>)
      requires InOrder(elements) && Below(elements, nextId)
      modifies this`elements, this`removed
      ensures InOrder(elements) && Below(elements, nextId)
      ensures matched == FirstMatch(old(Entries(elements)), value)
      ensures Entries(elements) ==
        match matched case Some(i) => Cut(old(Entries(elements)), i) case None => old(Entries(elements))
      ensures removed ==
        old(removed) + match matched case Some(i) => [old(Entries(elements))[i].item] case None => []
    {
      ghost var before := elements;
      ghost var i, found := UnlinkFirst(value);
      matched := if found then Some(i) else None;
      if found {
        CutKeepsOrder(before, i, nextId);
        CutEntries(before, i);
        RemovedFirst(before, i, value);
      } else {
        NoMatch(before, value);
      }
    }

    /** The deadline of an element, in the list or not, can be moved at any moment. */
    method RenewElement(element: LifeCycleElement<V>, lifeTime: int, now: int)
      requires Valid() && element in elements
      modifies element`expireTime
      ensures Valid() && View() == RenewStep(old(View()), element.id, now + lifeTime)
    {
      element.Renew(lifeTime, now);
      assert Entries(elements) == Postpone(old(Entries(elements)), element.id, now + lifeTime);
    }

    // ---- the cleanup, in the steps between which it can be held up ----

    method StartCleanup(now: int)
      requires Valid() && !cleaning
      modifies this`cleaning, this`cleanupTime, this`cursor, this`sending, this`pos
      ensures Valid() && View() == StartStep(old(View()), now)
    {
      cleaning, cleanupTime, cursor, sending := true, now, Front(elements), null;
      pos := 0;
      assert Entries(elements) == old(Entries(elements));
    }

    /** One turn of the cursor, up to the send; at the end of the list the loop is left. */
    method Scan()
      requires Valid() && cleaning && sending == null
      modifies this`elements, this`cleaning, this`cursor, this`sending, this`pos, this`entry
      ensures Valid() && View() == ScanStep(old(View()))
    {
      if cursor == null {
        cleaning := false;
      } else if cursor.expireTime < cleanupTime {
        UnlinkExpired(cursor);
      } else {
        StepOver(cursor);
      }
    }

    method UnlinkExpired(elmt: LifeCycleElement<V>)
      requires Valid() && cleaning && sending == null && cursor == elmt && elmt.expireTime < cleanupTime
      modifies this`elements, this`cursor, this`sending, this`entry
      ensures Valid() && View() == ScanStep(old(View()))
    {
      ghost var before := elements;
      CutKeepsOrder(before, pos, nextId);
      UnlinkCursor(elmt);
      CutEntries(before, pos);
      sending, entry := elmt, Some(elmt.View());
    }

    /** The cursor moves on before its element is unlinked. */
    method UnlinkCursor(elmt: LifeCycleElement<V>)
      requires InOrder(elements) && pos < |elements| && elmt == elements[pos]
      modifies this`elements, this`cursor
      ensures elements == Cut(old(elements), pos)
      ensures cursor == if pos + 1 < |old(elements)| then old(elements)[pos + 1] else null
    {
      NextOfAt(elements, pos);
      CutOneAt(elements, pos);
      cursor := NextOf(elements, elmt);
      elements := CutOne(elements, elmt);
    }

    method StepOver(elmt: LifeCycleElement<V>)
      requires Valid() && cleaning && sending == null && cursor == elmt && elmt.expireTime >= cleanupTime
      modifies this`cursor, this`pos
      ensures Valid() && View() == ScanStep(old(View()))
    {
      NextOfAt(elements, pos);
      cursor := NextOf(elements, elmt);
      pos := pos + 1;
    }

    /** The send; it waits until the channel has room, or, without a buffer, for a listener. */
    method Emit()
      requires Valid() && cleaning && sending != null && (|chExpire| < room || room == 0)
      modifies this`chExpire, this`sending, this`emitted, this`received
      ensures Valid() && View() == EmitStep(old(View())) && sending == null
    {
      if room == 0 {
        received := received + [sending.value];
      } else {
        chExpire := chExpire + [sending.value];
      }
      emitted := emitted + [Emission(entry.value, cleanupTime)];
      sending := null;
    }

    /** Whoever listens takes the oldest value. */
    method Receive()
      requires Valid() && chExpire != []
      modifies this`chExpire, this`received
      ensures Valid() && View() == ReceiveStep(old(View()))
    {
      received := received + [chExpire[0]];
      chExpire := chExpire[1..];
    }

    /** The whole cleanup. Where the channel is full it waits for whoever listens. */
    method Cleanup(now: int)
      requires Valid() && !cleaning
      modifies this
      ensures Valid() && !cleaning
      ensures View().live == Survivors(old(View()).live, now)
      ensures received + chExpire == old(received + chExpire) + ExpiredValues(old(View()).live, now)
      ensures removed == old(removed) && nextId == old(nextId)
    {
      ghost var s0 := View();
      StartCleanup(now);
      ghost var s := View();
      while cursor != null
        invariant Valid() && cleaning && sending == null
        invariant s == View() && MidCleanup(s, s0, now)
        decreases |s.live| - s.phase.pos
      {
        TurnMakesProgress(s, s0, now);
        Turn();
        s := TurnState(s);
      }
      CleanupEnds(s, s0, now);
      Scan();
    }

    /** One element: stepped over, or unlinked and sent. */
    method Turn()
      requires Valid() && cleaning && sending == null && cursor != null
      modifies this
      ensures Valid() && View() == TurnState(old(View()))
      ensures cleaning && sending == null
    {
      Scan();
      if sending != null {
        if |chExpire| == room > 0 {
          Receive();
        }
        Emit();
      }
    }

    /** The loop goes on behind a match; but an unlinked element has no successor. */
    method UnlinkFirst(value: V) returns (ghost i: nat, ghost found: bool)
      requires InOrder(elements)
      modifies this`elements, this`removed
      ensures found ==> i < |old(elements)| && old(elements)[i].value == value && elements == Cut(old(elements), i)
      ensures found ==> removed == old(removed) + [Item(old(elements)[i].id, value)]
      ensures !found ==> i == |elements| && elements == old(elements) && removed == old(removed)
      ensures forall j | 0 <= j < i :: old(elements)[j].value != value
    {
      ghost var before := elements;
      i, found := 0, false;
      var p := Front(elements);
      while p != null
        invariant i <= |before| && forall j | 0 <= j < i :: before[j].value != value
        invariant !found ==> elements == before && removed == old(removed)
        invariant !found ==> p == if i < |before| then before[i] else null
        invariant found ==> p == null && i < |before| && before[i].value == value && elements == Cut(before, i)
        invariant found ==> removed == old(removed) + [Item(before[i].id, value)]
        decreases |before| - i, p != null
      {
        var el := p;
        NextOfAt(before, i);
        if el.value == value {
          CutOneAt(before, i);
          elements := CutOne(elements, el);
          removed := removed + [Item(el.id, el.value)];
          NextOfRemoved(before, i);
          found := true;
        } else {
          i := i + 1;
        }
        p := NextOf(elements, el);
      }
    }
  }

  // ---- the list ----

  /** Elements stand in the order of addition; so no element is in the list twice. */
  ghost predicate InOrder<V>(es: seq<LifeCycleElement<V>>) {
    forall i, j | 0 <= i < j < |es| :: es[i].id < es[j].id
  }

  ghost predicate Below<V>(es: seq<LifeCycleElement<V>>, bound: nat) {
    forall i | 0 <= i < |es| :: es[i].id < bound
  }

  function Front<V>(es: seq<LifeCycleElement<V>>): LifeCycleElement?<V> {
    if es == [] then null else es[0]
  }

  /** The element behind `e`. An element that is not in the list has no successor. */
  function NextOf<V>(es: seq<LifeCycleElement<V>>, e: LifeCycleElement<V>): LifeCycleElement?<V> {
    if es == [] then null
    else if es[0] != e then NextOf(es[1..], e)
    else Front(es[1..])
  }

  function CutOne<V>(es: seq<LifeCycleElement<V>>, e: LifeCycleElement<V>): seq<LifeCycleElement<V>> {
    if es == [] then [] else if es[0] == e then es[1..] else [es[0]] + CutOne(es[1..], e)
  }

  lemma {:induction false} NextOfAt<V>(es: seq<LifeCycleElement<V>>, i: nat)
    requires InOrder(es) && i < |es|
    ensures NextOf(es, es[i]) == if i + 1 < |es| then es[i + 1] else null
  {
    if i > 0 {
      NextOfAt(es[1..], i - 1);
    }
  }

  lemma {:induction false} NextOfNone<V>(es: seq<LifeCycleElement<V>>, e: LifeCycleElement<V>)
    requires e !in es
    ensures NextOf(es, e) == null
  {
    if es != [] {
      NextOfNone(es[1..], e);
    }
  }

  lemma NextOfRemoved<V>(es: seq<LifeCycleElement<V>>, i: nat)
    requires InOrder(es) && i < |es|
    ensures NextOf(Cut(es, i), es[i]) == null
  {
    NextOfNone(Cut(es, i), es[i]);
  }

  lemma {:induction false} CutOneAt<V>(es: seq<LifeCycleElement<V>>, i: nat)
    requires InOrder(es) && i < |es|
    ensures CutOne(es, es[i]) == Cut(es, i)
  {
    CutCons(es, i);
    if i > 0 {
      assert es[1..][i - 1] == es[i] && es[0] != es[i];
      CutOneAt(es[1..], i - 1);
    }
  }

  lemma CutCons<T>(es: seq<T>, i: nat)
    requires i < |es|
    ensures Cut(es, i) == if i == 0 then es[1..] else [es[0]] + Cut(es[1..], i - 1)
  {
  }

  lemma CutKeepsOrder<V>(es: seq<LifeCycleElement<V>>, i: nat, bound: nat)
    requires InOrder(es) && Below(es, bound) && i < |es|
    ensures InOrder(Cut(es, i)) && Below(Cut(es, i), bound)
    ensures (if i + 1 < |es| then es[i + 1] else null) == if i < |Cut(es, i)| then Cut(es, i)[i] else null
  {
  }

  lemma CutEntries<V>(es: seq<LifeCycleElement<V>>, i: nat)
    requires i < |es|
    ensures Entries(Cut(es, i)) == Cut(Entries(es), i)
  {
  }

  lemma NoMatch<V>(es: seq<LifeCycleElement<V>>, value: V)
    requires forall j | 0 <= j < |es| :: es[j].value != value
    ensures FirstMatch(Entries(es), value) == None
  {
  }

  lemma RemovedFirst<V>(es: seq<LifeCycleElement<V>>, i: nat, value: V)
    requires i < |es| && es[i].value == value && forall j | 0 <= j < i :: es[j].value != value
    ensures FirstMatch(Entries(es), value) == Some(i)
  {
    assert Entries(es)[i].item.value == value;
  }
}
