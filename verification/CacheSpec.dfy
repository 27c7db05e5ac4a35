/**
  What the server's object cache means: a map from keys to values with a deadline, fed
  by one queue of set requests and one of remove requests. Times are integers; the
  clock is a parameter of every step.
*/
module CacheSpec {
  import opened Basics

  datatype Entry<+V> = Entry(value: V, expire: int)

  datatype Request<+K, +V> = Request(key: K, value: V, lifeTime: int)

  datatype Store<K(==), V> = Store(entries: map<K, Entry<V>>, chSet: seq<Request<K, V>>, chRemove: seq<K>)

  function Lookup<K(==), V>(m: map<K, Entry<V>>, k: K): Option<V> {
    if k in m then Some(m[k].value) else None
  }

  function SetEntry<K(==), V>(m: map<K, Entry<V>>, r: Request<K, V>, now: int): map<K, Entry<V>> {
    m[r.key := Entry(r.value, now + r.lifeTime)]
  }

  function RemoveEntry<K(==), V>(m: map<K, Entry<V>>, k: K): map<K, Entry<V>> {
    m - {k}
  }

  /** An entry goes when its deadline is strictly before `now`. */
  function CleanupEntries<K(==), V>(m: map<K, Entry<V>>, now: int): map<K, Entry<V>> {
    map k | k in m && m[k].expire >= now :: m[k]
  }

  // ---- the steps of the processing loop and of its callers ----

  function ProcessSet<K(==), V>(s: Store<K, V>, now: int): Store<K, V> {
    if s.chSet == [] then s else s.(entries := SetEntry(s.entries, s.chSet[0], now), chSet := s.chSet[1..])
  }

  function ProcessRemove<K(==), V>(s: Store<K, V>): Store<K, V> {
    if s.chRemove == [] then s else s.(entries := RemoveEntry(s.entries, s.chRemove[0]), chRemove := s.chRemove[1..])
  }

  function ProcessTimer<K(==), V>(s: Store<K, V>, now: int): Store<K, V> {
    s.(entries := CleanupEntries(s.entries, now))
  }

  function QueueSet<K(==), V>(s: Store<K, V>, r: Request<K, V>): Store<K, V> {
    s.(chSet := s.chSet + [r])
  }

  /** Nothing is queued for an absent key. */
  function QueueDelete<K(==), V>(s: Store<K, V>, k: K): Store<K, V> {
    if k in s.entries then s.(chRemove := s.chRemove + [k]) else s
  }

  // ---- the store is a function of its history ----

  datatype Event<+K, +V> =
    | SetAt(key: K, value: V, lifeTime: int, at: int)
    | RemoveAt(key: K, at: int)
    | CleanupAt(at: int)

  function Apply<K(==), V>(m: map<K, Entry<V>>, e: Event<K, V>): map<K, Entry<V>> {
    match e
    case SetAt(k, v, life, t) => SetEntry(m, Request(k, v, life), t)
    case RemoveAt(k, _) => RemoveEntry(m, k)
    case CleanupAt(t) => CleanupEntries(m, t)
  }

  function Replay<K(==), V>(h: seq<Event<K, V>>): map<K, Entry<V>> {
    if h == [] then map[] else Apply(Replay(h[..|h| - 1]), h[|h| - 1])
  }

  lemma ReplaySnoc<K, V>(h: seq<Event<K, V>>, e: Event<K, V>)
    ensures Replay(h + [e]) == Apply(Replay(h), e)
  {
    assert (h + [e])[..|h|] == h;
  }

  /** `h[i]` sets `k` to `v`; it is the last request for `k`; and no cleanup after it ran
      later than its deadline. */
  ghost predicate LiveSince<K, V>(h: seq<Event<K, V>>, k: K, v: V, i: int) {
    && 0 <= i < |h|
    && h[i].SetAt? && h[i].key == k && h[i].value == v
    && (forall j | i < j < |h| :: !h[j].CleanupAt? ==> h[j].key != k)
    && (forall j | i < j < |h| :: h[j].CleanupAt? ==> h[j].at <= h[i].at + h[i].lifeTime)
  }

  lemma LiveSinceSnoc<K, V>(h: seq<Event<K, V>>, k: K, v: V, i: int)
    requires h != [] && 0 <= i < |h| - 1
    ensures
      var e := h[|h| - 1];
      LiveSince(h, k, v, i) <==>
        && LiveSince(h[..|h| - 1], k, v, i)
        && (if e.CleanupAt? then e.at <= h[i].at + h[i].lifeTime else e.key != k)
  {
  }

  /** The history law. A key maps to a value exactly when some set of it is live, and then
      its deadline is the one of that set. No assumption on the clock is needed. */
  lemma {:induction false} StoreEqualsHistory<K, V>(h: seq<Event<K, V>>, k: K, v: V)
    ensures Lookup(Replay(h), k) == Some(v) <==> exists i :: LiveSince(h, k, v, i)
    ensures forall i :: LiveSince(h, k, v, i) ==> Replay(h)[k] == Entry(v, h[i].at + h[i].lifeTime)
  {
    if h != [] {
      var n := |h| - 1;
      var h', e := h[..n], h[n];
      StoreEqualsHistory(h', k, v);
      forall i | 0 <= i < n
        ensures LiveSince(h, k, v, i) <==>
          LiveSince(h', k, v, i) && (if e.CleanupAt? then e.at <= h[i].at + h[i].lifeTime else e.key != k)
      {
        LiveSinceSnoc(h, k, v, i);
      }
      assert LiveSince(h, k, v, n) <==> e.SetAt? && e.key == k && e.value == v;
      if Lookup(Replay(h), k) == Some(v) && !(e.SetAt? && e.key == k) {
        var i :| LiveSince(h', k, v, i);
        assert LiveSince(h, k, v, i);
      }
    }
  }

  ghost predicate ClockMonotone<K, V>(h: seq<Event<K, V>>) {
    forall i, j | 0 <= i < j < |h| :: h[i].at <= h[j].at
  }

  /** No early eviction: while the clock has not passed the deadline of the last set of
      `k`, the cache still answers with that value. */
  lemma NoEarlyEviction<K, V>(h: seq<Event<K, V>>, i: nat)
    requires i < |h| && h[i].SetAt?
    requires forall j | i < j < |h| :: !h[j].CleanupAt? ==> h[j].key != h[i].key
    requires ClockMonotone(h) && h[|h| - 1].at <= h[i].at + h[i].lifeTime
    ensures Lookup(Replay(h), h[i].key) == Some(h[i].value)
  {
    assert forall j | i < j < |h| :: h[j].at <= h[|h| - 1].at;
    assert LiveSince(h, h[i].key, h[i].value, i);
    StoreEqualsHistory(h, h[i].key, h[i].value);
  }

  // ---- the two request queues: which schedules agree ----

  /** Which queue the select statement takes from next, and when. */
  datatype Pick = TakeSet(at: int) | TakeRemove(at: int)

  function PickStep<K(==), V>(s: Store<K, V>, p: Pick): Store<K, V> {
    match p
    case TakeSet(t) => ProcessSet(s, t)
    case TakeRemove(_) => ProcessRemove(s)
  }

  function Drain<K(==), V>(s: Store<K, V>, picks: seq<Pick>): Store<K, V>
    decreases |picks|
  {
    if picks == [] then s else Drain(PickStep(s, picks[0]), picks[1..])
  }

  ghost predicate Complete<K, V>(s: Store<K, V>, picks: seq<Pick>) {
    Drain(s, picks).chSet == [] && Drain(s, picks).chRemove == []
  }

  /** Whatever can happen to the store: a turn of the processing loop, or a caller's send. */
  datatype StoreLabel<+K, +V> = Turn(pick: Pick) | Timer(at: int) | Ask(request: Request<K, V>) | AskRemoval(key: K)

  function StoreStep<K(==), V>(s: Store<K, V>, x: StoreLabel<K, V>): Store<K, V> {
    match x
    case Turn(p) => PickStep(s, p)
    case Timer(t) => ProcessTimer(s, t)
    case Ask(r) => QueueSet(s, r)
    case AskRemoval(k) => QueueDelete(s, k)
  }

  function StoreRun<K(==), V>(xs: seq<StoreLabel<K, V>>): Store<K, V> {
    if xs == [] then Store(map[], [], []) else StoreStep(StoreRun(xs[..|xs| - 1]), xs[|xs| - 1])
  }

  /** What a step processes. */
  function Processed<K, V>(s: Store<K, V>, x: StoreLabel<K, V>): seq<Event<K, V>> {
    match x
    case Turn(TakeSet(t)) =>
      if s.chSet == [] then [] else [SetAt(s.chSet[0].key, s.chSet[0].value, s.chSet[0].lifeTime, t)]
    case Turn(TakeRemove(t)) => if s.chRemove == [] then [] else [RemoveAt(s.chRemove[0], t)]
    case Timer(t) => [CleanupAt(t)]
    case _ => []
  }

  function HistoryOf<K(==), V>(xs: seq<StoreLabel<K, V>>): seq<Event<K, V>> {
    if xs == [] then []
    else HistoryOf(xs[..|xs| - 1]) + Processed(StoreRun(xs[..|xs| - 1]), xs[|xs| - 1])
  }

  /** In every run of the loop and its callers the cache is the replay of what was processed. */
  lemma {:induction false} StoreIsReplay<K, V>(xs: seq<StoreLabel<K, V>>)
    ensures StoreRun(xs).entries == Replay(HistoryOf(xs))
  {
    if xs != [] {
      var s, h, x := StoreRun(xs[..|xs| - 1]), HistoryOf(xs[..|xs| - 1]), xs[|xs| - 1];
      StoreIsReplay(xs[..|xs| - 1]);
      StepIsReplay(s, h, x);
    }
  }

  lemma StepIsReplay<K, V>(s: Store<K, V>, h: seq<Event<K, V>>, x: StoreLabel<K, V>)
    requires s.entries == Replay(h)
    ensures StoreStep(s, x).entries == Replay(h + Processed(s, x))
  {
    var es := Processed(s, x);
    if es == [] {
      assert h + es == h;
    } else {
      var e := es[0];
      assert h + es == h + [e];
      assert StoreStep(s, x).entries == Apply(s.entries, e);
      ReplaySnoc(h, e);
    }
  }

  // ---- requests are processed as they were asked, in order ----

  function SetsAsked<K(==), V>(xs: seq<StoreLabel<K, V>>): seq<Request<K, V>> {
    if xs == [] then []
    else
      var rest := SetsAsked(xs[..|xs| - 1]);
      match xs[|xs| - 1]
      case Ask(r) => rest + [r]
      case _ => rest
  }

  /** A removal of a key that is not cached is not queued. */
  function RemovalsAsked<K(==), V>(xs: seq<StoreLabel<K, V>>): seq<K> {
    if xs == [] then []
    else
      var rest := RemovalsAsked(xs[..|xs| - 1]);
      match xs[|xs| - 1]
      case AskRemoval(k) => if k in StoreRun(xs[..|xs| - 1]).entries then rest + [k] else rest
      case _ => rest
  }

  function SetsDone<K(==), V>(h: seq<Event<K, V>>): seq<Request<K, V>> {
    if h == [] then []
    else
      var rest := SetsDone(h[..|h| - 1]);
      match h[|h| - 1]
      case SetAt(k, v, life, _) => rest + [Request(k, v, life)]
      case _ => rest
  }

  function RemovalsDone<K(==), V>(h: seq<Event<K, V>>): seq<K> {
    if h == [] then []
    else
      var rest := RemovalsDone(h[..|h| - 1]);
      match h[|h| - 1]
      case RemoveAt(k, _) => rest + [k]
      case _ => rest
  }

  lemma DoneSnoc<K, V>(h: seq<Event<K, V>>, e: Event<K, V>)
    ensures SetsDone(h + [e]) ==
      SetsDone(h) + if e.SetAt? then [Request(e.key, e.value, e.lifeTime)] else []
    ensures RemovalsDone(h + [e]) == RemovalsDone(h) + if e.RemoveAt? then [e.key] else []
  {
    assert (h + [e])[..|h|] == h;
  }

  /** From waiting to done goes the oldest, and what is asked for goes to the end. */
  lemma QueueMoves<T>(done: seq<T>, q: seq<T>, x: T)
    ensures q != [] ==> (done + [q[0]]) + q[1..] == done + q
    ensures done + (q + [x]) == done + q + [x]
    ensures done + q + [] == done + q
  {
  }

  lemma AskedSnoc<K, V>(xs: seq<StoreLabel<K, V>>)
    requires xs != []
    ensures
      var n := |xs| - 1;
      && SetsAsked(xs) == SetsAsked(xs[..n]) + (if xs[n].Ask? then [xs[n].request] else [])
      && RemovalsAsked(xs) == RemovalsAsked(xs[..n]) +
           if xs[n].AskRemoval? && xs[n].key in StoreRun(xs[..n]).entries then [xs[n].key] else []
  {
  }

  /** In every run, what was processed and then what still waits is what was asked for: every
      request with its own key, value and lifetime, in order, none lost and none twice. */
  lemma {:induction false} RequestsInOrder<K, V>(xs: seq<StoreLabel<K, V>>)
    ensures SetsDone(HistoryOf(xs)) + StoreRun(xs).chSet == SetsAsked(xs)
    ensures RemovalsDone(HistoryOf(xs)) + StoreRun(xs).chRemove == RemovalsAsked(xs)
  {
    if xs != [] {
      var n := |xs| - 1;
      var s, h, x := StoreRun(xs[..n]), HistoryOf(xs[..n]), xs[n];
      RequestsInOrder(xs[..n]);
      AskedSnoc(xs);
      StepMovesOn(s, h, x);
    }
  }

  /** What is done and what waits, after a step with history `h'`, from what it was. */
  ghost predicate MovesOn<K, V>(s: Store<K, V>, h: seq<Event<K, V>>, x: StoreLabel<K, V>, h': seq<Event<K, V>>) {
    var r := StoreStep(s, x);
    && SetsDone(h') + r.chSet == SetsDone(h) + s.chSet + (if x.Ask? then [x.request] else [])
    && RemovalsDone(h') + r.chRemove ==
         RemovalsDone(h) + s.chRemove + if x.AskRemoval? && x.key in s.entries then [x.key] else []
  }

  lemma AskMovesOn<K, V>(s: Store<K, V>, h: seq<Event<K, V>>, x: StoreLabel<K, V>)
    requires x.Ask? || x.AskRemoval?
    ensures MovesOn(s, h, x, h)
  {
  }

  lemma TakeSetMovesOn<K, V>(s: Store<K, V>, h: seq<Event<K, V>>, at: int)
    requires s.chSet != []
    ensures
      var req := s.chSet[0];
      MovesOn(s, h, Turn(TakeSet(at)), h + [SetAt(req.key, req.value, req.lifeTime, at)])
  {
    var req := s.chSet[0];
    DoneSnoc(h, SetAt(req.key, req.value, req.lifeTime, at));
    QueueMoves(SetsDone(h), s.chSet, req);
  }

  lemma TakeRemoveMovesOn<K, V>(s: Store<K, V>, h: seq<Event<K, V>>, at: int)
    requires s.chRemove != []
    ensures MovesOn(s, h, Turn(TakeRemove(at)), h + [RemoveAt(s.chRemove[0], at)])
  {
    DoneSnoc(h, RemoveAt(s.chRemove[0], at));
    QueueMoves(RemovalsDone(h), s.chRemove, s.chRemove[0]);
  }

  lemma TimerMovesOn<K, V>(s: Store<K, V>, h: seq<Event<K, V>>, at: int)
    ensures MovesOn(s, h, Timer(at), h + [CleanupAt(at)])
  {
    DoneSnoc(h, CleanupAt(at));
  }

  lemma StepMovesOn<K, V>(s: Store<K, V>, h: seq<Event<K, V>>, x: StoreLabel<K, V>)
    ensures MovesOn(s, h, x, h + Processed(s, x))
  {
    if Processed(s, x) == [] {
      assert h + [] == h;
    } else {
      match x
      case Turn(TakeSet(t)) => TakeSetMovesOn(s, h, t);
      case Turn(TakeRemove(t)) => TakeRemoveMovesOn(s, h, t);
      case Timer(t) => TimerMovesOn(s, h, t);
      case _ =>
    }
  }

  /** The values queued for `k`, oldest first. */
  function SetsOf<K(==), V>(rs: seq<Request<K, V>>, k: K): seq<V> {
    if rs == [] then []
    else if rs[0].key == k then [rs[0].value] + SetsOf(rs[1..], k)
    else SetsOf(rs[1..], k)
  }

  ghost function Last<T>(s: seq<T>): T
    requires s != []
  {
    s[|s| - 1]
  }

  /** The outcome for one key of draining both queues, whatever the schedule. */
  lemma {:induction false} DrainOutcome<K, V>(s: Store<K, V>, picks: seq<Pick>, k: K)
    requires Complete(s, picks)
    ensures
      var sets, out := SetsOf(s.chSet, k), Lookup(Drain(s, picks).entries, k);
      && (k !in s.chRemove ==> out == if sets == [] then Lookup(s.entries, k) else Some(Last(sets)))
      && (k in s.chRemove && sets == [] ==> out == None)
      && (k in s.chRemove && sets != [] ==> out == None || out == Some(Last(sets)))
    decreases |picks|
  {
    if picks != [] {
      DrainOutcome(PickStep(s, picks[0]), picks[1..], k);
    }
  }

  /** The values still to be written and removals still to be done decide everything:
      a key with only sets queued ends at the last one queued. */
  lemma OnlySetsEndsAtLast<K, V>(s: Store<K, V>, picks: seq<Pick>, k: K)
    requires Complete(s, picks) && SetsOf(s.chSet, k) != [] && k !in s.chRemove
    ensures Lookup(Drain(s, picks).entries, k) == Some(Last(SetsOf(s.chSet, k)))
  {
    DrainOutcome(s, picks, k);
  }

  ghost predicate ScheduleIndependent<K, V>(s: Store<K, V>, k: K) {
    forall p, p' | Complete(s, p) && Complete(s, p') ::
      Lookup(Drain(s, p).entries, k) == Lookup(Drain(s, p').entries, k)
  }

  lemma {:induction false} DrainConcat<K, V>(s: Store<K, V>, p: seq<Pick>, p': seq<Pick>)
    ensures Drain(s, p + p') == Drain(Drain(s, p), p')
    decreases |p|
  {
    if p == [] {
      assert p + p' == p';
    } else {
      DrainConcat(PickStep(s, p[0]), p[1..], p');
      assert (p + p')[1..] == p[1..] + p';
    }
  }

  /** A schedule that empties the set queue and touches nothing else. */
  lemma {:induction false} DrainSets<K, V>(s: Store<K, V>) returns (p: seq<Pick>)
    ensures Drain(s, p).chSet == [] && Drain(s, p).chRemove == s.chRemove
    decreases |s.chSet|
  {
    if s.chSet == [] {
      p := [];
    } else {
      var p' := DrainSets(ProcessSet(s, 0));
      p := [TakeSet(0)] + p';
      assert p[1..] == p';
    }
  }

  /** A schedule that empties the remove queue and touches nothing else. */
  lemma {:induction false} DrainRemoves<K, V>(s: Store<K, V>) returns (p: seq<Pick>)
    ensures Drain(s, p).chRemove == [] && Drain(s, p).chSet == s.chSet
    decreases |s.chRemove|
  {
    if s.chRemove == [] {
      p := [];
    } else {
      var p' := DrainRemoves(ProcessRemove(s));
      p := [TakeRemove(0)] + p';
      assert p[1..] == p';
    }
  }

  /** Sets and removes of one key race: the outcome is independent of the schedule
      exactly when the key does not have requests waiting in both queues. */
  lemma ScheduleIndependentIff<K, V>(s: Store<K, V>, k: K)
    ensures ScheduleIndependent(s, k) <==> SetsOf(s.chSet, k) == [] || k !in s.chRemove
  {
    if SetsOf(s.chSet, k) == [] || k !in s.chRemove {
      forall p, p' | Complete(s, p) && Complete(s, p')
        ensures Lookup(Drain(s, p).entries, k) == Lookup(Drain(s, p').entries, k)
      {
        DrainOutcome(s, p, k);
        DrainOutcome(s, p', k);
      }
    } else {
      // sets first: the removals win
      var a := DrainSets(s);
      var a' := DrainRemoves(Drain(s, a));
      DrainConcat(s, a, a');
      DrainOutcome(Drain(s, a), a', k);
      // removals first: the last set wins
      var b := DrainRemoves(s);
      var b' := DrainSets(Drain(s, b));
      DrainConcat(s, b, b');
      DrainOutcome(Drain(s, b), b', k);
      assert Complete(s, a + a') && Complete(s, b + b');
      assert Lookup(Drain(s, a + a').entries, k) != Lookup(Drain(s, b + b').entries, k);
    }
  }

  /** The requests for one key, in order, without their times. */
  function KeyRequests<K(==), V>(h: seq<Event<K, V>>, k: K): seq<Option<V>> {
    if h == [] then []
    else
      var rest := KeyRequests(h[..|h| - 1], k);
      match h[|h| - 1]
      case SetAt(k', v, _, _) => if k' == k then rest + [Some(v)] else rest
      case RemoveAt(k', _) => if k' == k then rest + [None] else rest
      case CleanupAt(_) => rest
  }

  lemma {:induction false} LastRequestDecides<K, V>(h: seq<Event<K, V>>, k: K)
    requires forall e | e in h :: !e.CleanupAt?
    ensures
      var rs := KeyRequests(h, k);
      Lookup(Replay(h), k) == if rs == [] then None else Last(rs)
  {
    if h != [] {
      LastRequestDecides(h[..|h| - 1], k);
    }
  }

  /** Confluence: two interleavings of set and remove requests that agree on the order of
      each key's own requests leave the same map from keys to values. */
  lemma InterleavingsConfluent<K, V>(h: seq<Event<K, V>>, h': seq<Event<K, V>>)
    requires forall e | e in h + h' :: !e.CleanupAt?
    requires forall k :: KeyRequests(h, k) == KeyRequests(h', k)
    ensures forall k :: Lookup(Replay(h), k) == Lookup(Replay(h'), k)
  {
    forall k ensures Lookup(Replay(h), k) == Lookup(Replay(h'), k) {
      assert forall e | e in h :: e in h + h';
      assert forall e | e in h' :: e in h + h';
      LastRequestDecides(h, k);
      LastRequestDecides(h', k);
    }
  }
}
