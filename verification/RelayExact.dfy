/**
  When the relay keeps the order to a receiver, exactly: for runs whose clock never goes
  back, a cached fingerprint is safe in all continuations that do not register it again if
  and only if the state is settled. With such a registration no run is safe.
*/
module RelayExact {
  import opened Basics
  import opened CacheSpec
  import opened Frames
  import opened Relay
  import opened RelayLaws
  import opened RelayOrder
  import opened RelayTrace
  import opened RelaySettled
  import opened RelayUnsettled

  // ---- the clock of a run ----

  predicate Timed(x: Step) {
    x.CacheSet? || x.CacheTimer?
  }

  /** The processing loop never reads an earlier time than it has read before. */
  ghost predicate ClockRuns(steps: seq<Step>) {
    forall i, j | 0 <= i < j < |steps| && Timed(steps[i]) && Timed(steps[j]) :: steps[i].now <= steps[j].now
  }

  ghost predicate NotAfter(steps: seq<Step>, now: int) {
    forall i | 0 <= i < |steps| && Timed(steps[i]) :: steps[i].now <= now
  }

  /** Every request asks for the one configured lifetime. */
  ghost predicate OneLife(steps: seq<Step>, life: int) {
    forall i | 0 <= i < |steps| && (steps[i].QueueUser? || steps[i].RenewWrite?) :: steps[i].lifeTime == life
  }

  /** What the server can go on to do after `steps`. */
  ghost predicate Continues(steps: seq<Step>, more: seq<Step>, life: int) {
    ClockRuns(steps + more) && OneLife(more, life)
  }

  lemma {:induction false} LastTime(steps: seq<Step>) returns (now: int)
    ensures NotAfter(steps, now)
  {
    if steps == [] {
      now := 0;
    } else {
      var n := |steps| - 1;
      var before := LastTime(steps[..n]);
      now := if Timed(steps[n]) && steps[n].now > before then steps[n].now else before;
      assert forall i | 0 <= i < n :: steps[i] == steps[..n][i];
    }
  }

  /** After `steps`, `more` led to `s`, and the time is `now`. */
  ghost predicate Ahead(steps: seq<Step>, more: seq<Step>, s: Server, now: int, life: int) {
    Run(steps + more) == s && Sane(s) && InTime(steps, more, now, life)
  }

  ghost predicate InTime(steps: seq<Step>, more: seq<Step>, now: int, life: int) {
    Continues(steps, more, life) && NotAfter(steps + more, now)
  }

  lemma Begin(steps: seq<Step>, life: int) returns (now: int)
    requires ClockRuns(steps)
    ensures Ahead(steps, [], Run(steps), now, life)
  {
    now := LastTime(steps);
    assert steps + [] == steps;
    AlwaysSane(steps);
  }

  lemma ClockConcat(a: seq<Step>, b: seq<Step>, now: int, later: int)
    requires ClockRuns(a) && NotAfter(a, now) && now <= later
    requires forall k | 0 <= k < |b| && Timed(b[k]) :: b[k].now == later
    ensures ClockRuns(a + b) && NotAfter(a + b, later)
  {
  }

  lemma AheadPlain(steps: seq<Step>, more: seq<Step>, s: Server, now: int, plain: seq<Step>, r: Server, q: Terms)
    requires Ahead(steps, more, s, now, q.life) && Goes(s, plain, r, q) && now <= q.now
    ensures Ahead(steps, more + plain, r, q.now, q.life)
  {
    LongerRun(steps, more, plain);
    RunFurther(steps + more, s, plain, r, steps + (more + plain));
    InTimePlain(steps, more, now, plain, q);
  }

  lemma LongerRun<T>(a: seq<T>, b: seq<T>, c: seq<T>)
    ensures a + b + c == a + (b + c)
  {
  }

  lemma RunFurther(run: seq<Step>, s: Server, more: seq<Step>, r: Server, all: seq<Step>)
    requires Run(run) == s && Leads(s, more, r) && all == run + more
    ensures Run(all) == r
  {
    LeadsRun(run, more, r);
  }

  lemma InTimePlain(steps: seq<Step>, more: seq<Step>, now: int, plain: seq<Step>, q: Terms)
    requires InTime(steps, more, now, q.life) && AllPlain(plain, q.now, q.life, q.fp) && now <= q.now
    ensures InTime(steps, more + plain, q.now, q.life)
  {
    PlainTimes(plain, q);
    ClockConcat(steps + more, plain, now, q.now);
    LifeConcat(more, plain, q);
    LongerRun(steps, more, plain);
  }

  lemma PlainTimes(plain: seq<Step>, q: Terms)
    requires AllPlain(plain, q.now, q.life, q.fp)
    ensures forall k | 0 <= k < |plain| && Timed(plain[k]) :: plain[k].now == q.now
  {
    forall k | 0 <= k < |plain| && Timed(plain[k]) ensures plain[k].now == q.now {
      assert Plain(plain[k], q.now, q.life, q.fp);
    }
  }

  lemma LifeConcat(more: seq<Step>, plain: seq<Step>, q: Terms)
    requires OneLife(more, q.life) && AllPlain(plain, q.now, q.life, q.fp)
    ensures OneLife(more + plain, q.life)
  {
    var all := more + plain;
    forall i | 0 <= i < |all| && (all[i].QueueUser? || all[i].RenewWrite?) ensures all[i].lifeTime == q.life {
      if i >= |more| {
        assert Plain(plain[i - |more|], q.now, q.life, q.fp);
      }
    }
  }

  lemma AheadTimer(steps: seq<Step>, more: seq<Step>, s: Server, now: int, later: int, life: int)
    requires Ahead(steps, more, s, now, life) && now <= later
    ensures Ahead(steps, more + [CacheTimer(later)], s.(cache := ProcessTimer(s.cache, later)), later, life)
  {
    var x := CacheTimer(later);
    assert steps + more + [x] == steps + (more + [x]);
    RunOn(steps + more, steps + (more + [x]), x, s, s.(cache := ProcessTimer(s.cache, later)));
    SaneStep(s, x);
    ClockConcat(steps + more, [x], now, later);
  }

  lemma GoesNowhere(s: Server, q: Terms)
    requires Sane(s)
    ensures Goes(s, [], s, q)
  {
    LeadsNowhere(s);
  }

  // ---- without a new registration ----

  lemma UnsettledCanLose(steps: seq<Step>, fp: Name, life: int) returns (more: seq<Step>, sender: Name)
    requires ClockRuns(steps) && fp in Run(steps).cache.entries && !Settled(Run(steps), fp)
    ensures Continues(steps, more, life) && TryRegister(fp) !in more
    ensures sender != Nobody && !OrderKept(Run(steps + more), sender, fp)
  {
    var s := Run(steps);
    var now := Begin(steps, life);
    var q, r := Terms(now, life, fp), s;
    GoesNowhere(s, q);
    more, r, sender := UnsettledLoses(s, [], s, q);
    AheadPlain(steps, [], s, now, more, r, q);
    assert [] + more == more;
    NotRegistered(more, q);
  }

  lemma NotRegistered(plain: seq<Step>, q: Terms)
    requires AllPlain(plain, q.now, q.life, q.fp)
    ensures TryRegister(q.fp) !in plain
  {
    forall k | 0 <= k < |plain| ensures plain[k] != TryRegister(q.fp) {
      assert Plain(plain[k], q.now, q.life, q.fp);
    }
  }

  /** The exact condition for the order to a cached receiver, in both directions: every
      continuation that does not register it again keeps every sender's order if and only if
      the state is settled. */
  lemma OrderKeptIffSettled(steps: seq<Step>, fp: Name, life: int)
    requires ClockRuns(steps) && fp in Run(steps).cache.entries
    ensures
      (forall more, sender | Continues(steps, more, life) && TryRegister(fp) !in more && sender != Nobody ::
         OrderKept(Run(steps + more), sender, fp))
      <==> Settled(Run(steps), fp)
  {
    if Settled(Run(steps), fp) {
      var u := Run(steps).cache.entries[fp].value;
      forall more, sender | Continues(steps, more, life) && TryRegister(fp) !in more && sender != Nobody
        ensures OrderKept(Run(steps + more), sender, fp)
      {
        SettledKeepsOrder(steps, more, fp, u, sender);
      }
    } else {
      var more, sender := UnsettledCanLose(steps, fp, life);
    }
  }

  // ---- with one object, and with more ----

  /** The sender's frames written from `u`, and then those that wait in `u`, are in order. */
  lemma MailboxWaitsInOrder(steps: seq<Step>, u: nat, sender: Name)
    requires u < |Run(steps).users| && sender != Nobody
    ensures
      var s := Run(steps);
      Subsequence(WrittenFrom(s.log.takes, sender, u) + FromSender(Mail(s, u), sender),
                  AcceptedFrom(s.log.accepted, sender, s.users[u].fp))
  {
    var s := Run(steps);
    var taken, mail := Taken(s.log.takes, u), Mail(s, u);
    var written, waiting := WrittenFrom(s.log.takes, sender, u), FromSender(mail, sender);
    MailboxesAreBoundedQueues(steps);
    StoredInOrder(steps);
    assert MailboxInOrder(s, u, sender);
    assert Stored(s.log.posts, u) == taken + mail;
    FromSenderConcat(taken, mail, sender);
    WrittenOfTaken(s.log.takes, sender, u);
    SubsequenceAppend(written, FromSender(taken, sender), waiting);
    SubsequenceTransitive(written + waiting, FromSender(taken + mail, sender),
                          AcceptedFrom(s.log.accepted, sender, s.users[u].fp));
  }

  /** A state with a single object of the fingerprint is settled. */
  lemma OneObjectIsSettled(steps: seq<Step>, fp: Name)
    requires fp in Run(steps).cache.entries && OneObject(Run(steps), fp)
    ensures Settled(Run(steps), fp)
  {
    var s := Run(steps);
    var u := s.cache.entries[fp].value;
    CacheNeverMixesUsers(steps);
    OneObjectReferences(s, fp, u);
    forall sender | sender != Nobody ensures WaitsInOrder(s, sender, fp, u) {
      MailboxWaitsInOrder(steps, u, sender);
      WrittenByOne(s.log.takes, s.users, u, sender, fp);
    }
  }

  lemma OneObjectReferences(s: Server, fp: Name, u: nat)
    requires KeyIntegrity(s) && OneObject(s, fp) && GetUser(s, fp) == Some(u)
    ensures IsObject(s, u, fp) && RefersOnlyTo(s, fp, u) && OthersSilent(s, fp, u)
  {
  }

  /** A fingerprint that expired and came back, before anything was sent. */
  function Twice(fp: Name): seq<Step> {
    [TryRegister(fp), QueueUser(0, 10), CacheSet(0)] + [CacheTimer(100)]
    + [TryRegister(fp), QueueUser(0, 10), CacheSet(100)]
  }

  /** Two objects, the second one cached; nothing has happened besides. */
  function TwoObjects(fp: Name): Server {
    Server([NewUser(fp), NewUser(fp)], Store(map[fp := CacheSpec.Entry(1, 110)], [], []), [], [], [], Log([], [], []))
  }

  lemma FirstExpires(c: Server, fp: Name) returns (steps: seq<Step>, s: Server)
    requires fp != Nobody && c == Initial()
    ensures steps == [TryRegister(fp), QueueUser(0, 10), CacheSet(0)] + [CacheTimer(100)]
    ensures Leads(c, steps, s) && s == c.(users := [NewUser(fp)])
  {
    LeadsNowhere(c);
    s := RegisterOne(c, [], c, fp, 10, 0);
    steps := [] + [TryRegister(fp), QueueUser(0, 10), CacheSet(0)];
    LeadsOn(c, steps, s, CacheTimer(100));
    steps, s := steps + [CacheTimer(100)], Next(s, CacheTimer(100));
    assert s.cache.entries == map[];
  }

  lemma RegisteredTwice(c: Server, fp: Name)
    requires fp != Nobody && c == Initial()
    ensures Leads(c, Twice(fp), TwoObjects(fp))
  {
    var steps, s := FirstExpires(c, fp);
    var r := RegisterOne(c, steps, s, fp, 10, 100);
    assert s.users + [NewUser(fp)] == [NewUser(fp), NewUser(fp)];
    assert r == TwoObjects(fp);
  }

  lemma TwoObjectsAreSettled(fp: Name)
    ensures !OneObject(TwoObjects(fp), fp) && Settled(TwoObjects(fp), fp)
  {
    var s := TwoObjects(fp);
    assert s.users[0].fp == s.users[1].fp == fp;
    assert forall sender | sender != Nobody :: WaitsInOrder(s, sender, fp, 1);
  }

  /** One object is not necessary: a run with two of them whose state is settled. */
  lemma TwoObjectsMayBeSettled(fp: Name)
    requires fp != Nobody
    ensures
      var s := Run(Twice(fp));
      fp in s.cache.entries && !OneObject(s, fp) && Settled(s, fp)
  {
    RegisteredTwice(Run([]), fp);
    RunFurther([], Run([]), Twice(fp), TwoObjects(fp), Twice(fp));
    TwoObjectsAreSettled(fp);
  }

  // ---- with a new registration ----

  lemma {:induction false} Clear(c: Server, steps: seq<Step>, s: Server, q: Terms)
      returns (steps': seq<Step>, r: Server)
    requires Goes(c, steps, s, q)
    ensures Goes(c, steps', r, q) && r.cache.chSet == []
    decreases |s.cache.chSet|
  {
    if s.cache.chSet == [] {
      steps', r := steps, s;
    } else {
      GoesOn(c, steps, s, q, CacheSet(q.now));
      steps', r := Clear(c, steps + [CacheSet(q.now)], AfterSet(s, q.now), q);
    }
  }

  /** Nothing is pending, and every entry has expired. */
  lemma Expire(steps: seq<Step>, more: seq<Step>, s: Server, now: int, life: int)
      returns (more': seq<Step>, r: Server, later: int)
    requires Ahead(steps, more, s, now, life) && s.cache.chSet == []
    ensures Ahead(steps, more', r, later, life) && r.cache.entries == map[] && r.cache.chSet == []
    ensures Undisturbed(s, r) && r.sessions == s.sessions
  {
    later := LaterThanAll(s.cache.entries);
    later := if later < now then now else later;
    AheadTimer(steps, more, s, now, later, life);
    more', r := more + [CacheTimer(later)], s.(cache := ProcessTimer(s.cache, later));
    assert forall k | k in s.cache.entries :: s.cache.entries[k].expire < later;
  }

  lemma ClearAndExpire(steps: seq<Step>, fp: Name, life: int) returns (more: seq<Step>, r: Server, now: int)
    requires ClockRuns(steps)
    ensures Ahead(steps, more, r, now, life) && r.cache.entries == map[] && r.cache.chSet == []
  {
    var s := Run(steps);
    now := Begin(steps, life);
    var q := Terms(now, life, Nobody);
    GoesNowhere(s, q);
    more, r := Clear(s, [], s, q);
    AheadPlain(steps, [], s, now, more, r, q);
    more, r, now := Expire(steps, [] + more, r, now, life);
  }

  /** Session `i` of the name's object `u` has a frame of a client to write. */
  ghost predicate Loaded(s: Server, fp: Name, u: nat, i: nat) {
    IsObject(s, u, fp) && i < |s.sessions| && s.sessions[i].user == u && !NoFrames(Mail(s, u))
  }

  lemma LoadedStays(s: Server, r: Server, fp: Name, u: nat, i: nat)
    requires Loaded(s, fp, u, i) && Undisturbed(s, r) && r.sessions == s.sessions
    ensures Loaded(r, fp, u, i)
  {
  }

  /** A new object for each of the two names, with a session. */
  lemma Newcomers(c: Server, s: Server, q: Terms, fp: Name, sender: Name)
      returns (steps: seq<Step>, r: Server, u: nat, i: nat, b: nat, ib: nat)
    requires Goes(c, [], s, q) && s.cache.chSet == [] && s.cache.entries == map[]
    requires q.fp == Nobody && fp !in {Nobody, sender} && sender != Nobody
    ensures Goes(c, steps, r, q) && GetUser(r, fp) == Some(u) && r.cache.chSet == [] && Mail(r, u) == []
    ensures BothReady(r, fp, u, i, b, ib, sender)
  {
    var s1, s2, s3;
    steps, s1 := AdmitNew(c, [], s, q, fp);
    steps, s2 := AdmitNew(c, steps, s1, q, sender);
    u, b := |s.users|, |s1.users|;
    assert Mail(s2, u) == [];
    steps, s3 := Greet(c, steps, s2, q, fp);
    steps, r := Greet(c, steps, s3, q, sender);
    i, ib := |s.sessions|, |s.sessions| + 1;
  }

  lemma LoadedBy(s: Server, r: Server, fp: Name, u: nat, i: nat, b: nat, ib: nat, f: Frame)
    requires Delivered(s, r, ib, b, u, f) && i < |s.sessions| && s.sessions[i].user == u && IsObject(s, u, fp)
    ensures Loaded(r, fp, u, i)
  {
    var m := SessionMessage(Some(b), u, f);
    assert Mail(r, u) == Mail(s, u) + [m];
    assert Mail(r, u)[|Mail(s, u)|] == m;
  }

  lemma Load(c: Server, steps: seq<Step>, s: Server, q: Terms, fp: Name, u: nat, i: nat, b: nat, ib: nat, sender: Name)
      returns (steps': seq<Step>, r: Server)
    requires Goes(c, steps, s, q) && GetUser(s, fp) == Some(u) && s.cache.chSet == [] && Mail(s, u) == []
    requires BothReady(s, fp, u, i, b, ib, sender)
    ensures Goes(c, steps', r, q) && r.cache.chSet == [] && Loaded(r, fp, u, i)
  {
    var f := Frame(0, sender, fp, Other);
    var x := Recv(ib, Parsed(f));
    Receives(s, ib, b, u, f);
    GoesOn(c, steps, s, q, x);
    steps', r := steps + [x], Receive(s, ib, Parsed(f));
    LoadedBy(s, r, fp, u, i, b, ib, f);
  }

  /** A frame waits for the name, the cache is empty. */
  lemma LeaveLoaded(steps: seq<Step>, fp: Name, life: int)
      returns (more: seq<Step>, r: Server, now: int, u: nat, i: nat)
    requires ClockRuns(steps) && fp != Nobody
    ensures Ahead(steps, more, r, now, life) && r.cache.entries == map[] && r.cache.chSet == [] && Loaded(r, fp, u, i)
  {
    var before, s, began, plain, m, b, ib, l;
    before, s, began := ClearAndExpire(steps, fp, life);
    var q, sender := Terms(began, life, Nobody), SomeoneElse(fp);
    GoesNowhere(s, q);
    plain, m, u, i, b, ib := Newcomers(s, s, q, fp, sender);
    plain, l := Load(s, plain, m, q, fp, u, i, b, ib, sender);
    AheadPlain(steps, before, s, began, plain, l, q);
    more, r, now := Expire(steps, before + plain, l, began, life);
    LoadedStays(l, r, fp, u, i);
  }

  /** The name is registered again while a frame waits in its old mailbox. */
  lemma LeaveUnsettled(steps: seq<Step>, fp: Name, life: int) returns (more: seq<Step>, s: Server, now: int)
    requires ClockRuns(steps) && fp != Nobody
    ensures Ahead(steps, more, s, now, life) && fp in s.cache.entries && !Settled(s, fp)
  {
    var before, m, u, i, plain;
    before, m, now, u, i := LeaveLoaded(steps, fp, life);
    var q := Terms(now, life, Nobody);
    GoesNowhere(m, q);
    plain, s := AdmitNew(m, [], m, q, fp);
    LoadedStays(m, s, fp, u, i);
    NotSettledBy(s, fp, u, i);
    AheadPlain(steps, before, m, now, plain, s, q);
    more := before + plain;
  }

  lemma NotSettledBy(s: Server, fp: Name, u: nat, i: nat)
    requires Loaded(s, fp, u, i) && fp in s.cache.entries && s.cache.entries[fp].value != u
    ensures !Settled(s, fp)
  {
    assert !NoFrames(Mail(s, s.sessions[i].user)) && IsObject(s, s.sessions[i].user, fp);
  }

  /** Whatever has happened, with one user object of the receiver or with many: the run can go
      on to one in which a sender's frames reach the receiver's sockets out of order. */
  lemma AnyRunCanLoseOrder(steps: seq<Step>, fp: Name, life: int)
    requires ClockRuns(steps) && fp != Nobody
    ensures exists more, sender ::
      Continues(steps, more, life) && sender != Nobody && !OrderKept(Run(steps + more), sender, fp)
  {
    var before, s, now := LeaveUnsettled(steps, fp, life);
    var q := Terms(now, life, fp);
    GoesNowhere(s, q);
    var plain, r, sender := UnsettledLoses(s, [], s, q);
    AheadPlain(steps, before, s, now, plain, r, q);
    assert Continues(steps, before + plain, life) && !OrderKept(Run(steps + (before + plain)), sender, fp);
  }
}
