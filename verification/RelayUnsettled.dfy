/**
  Every state that is not settled can lose the order. The continuations built here never
  set the clock back, give every user the one configured lifetime, and register the
  receiver's fingerprint no more.
*/
module RelayUnsettled {
  import opened Basics
  import opened CacheSpec
  import opened Frames
  import opened Relay
  import opened RelayLaws
  import opened RelayOrder
  import opened RelayTrace
  import opened RelaySettled

  // ---- plain continuations ----

  /** A step that may be taken at time `now`: no cleanup is due, requests are for the one
      lifetime, and the fingerprint is not registered. */
  predicate Plain(x: Step, now: int, life: int, fp: Name) {
    && x != TryRegister(fp) && !x.CacheTimer?
    && (x.CacheSet? ==> x.now == now) && (x.QueueUser? || x.RenewWrite? ==> x.lifeTime == life)
  }

  ghost predicate AllPlain(steps: seq<Step>, now: int, life: int, fp: Name) {
    forall k | 0 <= k < |steps| :: Plain(steps[k], now, life, fp)
  }

  /** What a continuation is allowed: the time, the lifetime, the fingerprint. */
  datatype Terms = Terms(now: int, life: int, fp: Name)

  /** Plain steps lead from `c` to `s`. */
  ghost predicate Goes(c: Server, steps: seq<Step>, s: Server, q: Terms) {
    Leads(c, steps, s) && Sane(s) && AllPlain(steps, q.now, q.life, q.fp)
  }

  lemma GoesOn(c: Server, steps: seq<Step>, s: Server, q: Terms, x: Step)
    requires Goes(c, steps, s, q) && Plain(x, q.now, q.life, q.fp)
    ensures Goes(c, steps + [x], Next(s, x), q)
  {
    LeadsOn(c, steps, s, x);
    SaneStep(s, x);
  }

  lemma GoesThree(c: Server, steps: seq<Step>, s: Server, q: Terms, x: Step, y: Step, z: Step)
      returns (steps': seq<Step>, r: Server)
    requires Goes(c, steps, s, q) && Plain(x, q.now, q.life, q.fp)
    requires Plain(y, q.now, q.life, q.fp) && Plain(z, q.now, q.life, q.fp)
    ensures Goes(c, steps', r, q) && r == Next(Next(Next(s, x), y), z)
  {
    GoesOn(c, steps, s, q, x);
    steps', r := steps + [x], Next(s, x);
    GoesOn(c, steps', r, q, y);
    steps', r := steps' + [y], Next(r, y);
    GoesOn(c, steps', r, q, z);
    steps', r := steps' + [z], Next(r, z);
  }

  lemma UndisturbedTransitive(s: Server, m: Server, r: Server)
    requires Undisturbed(s, m) && Undisturbed(m, r)
    ensures Undisturbed(s, r)
  {
  }

  lemma UndisturbedOrder(s: Server, r: Server, sender: Name, fp: Name, u: nat)
    requires TakesAuthentic(s) && Undisturbed(s, r)
    ensures WrittenAndWaiting(r, sender, fp, u) == WrittenAndWaiting(s, sender, fp, u)
    ensures AcceptedFrom(r.log.accepted, sender, fp) == AcceptedFrom(s.log.accepted, sender, fp)
  {
    WrittenStays(s, r, sender, fp);
  }

  // ---- a handshake ----

  /** A new session for the object that is cached under the name. */
  lemma Greet(c: Server, steps: seq<Step>, s: Server, q: Terms, name: Name) returns (steps': seq<Step>, r: Server)
    requires Goes(c, steps, s, q) && name in s.cache.entries
    ensures Goes(c, steps', r, q) && Undisturbed(s, r)
    ensures r == s.(sessions := s.sessions + [Session(s.cache.entries[name].value, name, 0)])
  {
    var x := Handshake(name, name, 0);
    Greets(s, name, s.cache.entries[name].value, 0);
    GoesOn(c, steps, s, q, x);
    steps', r := steps + [x], HandshakeStep(s, name, name, 0);
  }

  // ---- emptying a mailbox ----

  /** The first `k` messages of `user`'s mailbox were taken out, and those of `sender` written. */
  ghost predicate Drained(s: Server, r: Server, user: nat, k: nat, sender: Name, fp: Name) {
    && k <= |Mail(s, user)| && Grows(s, r) && |r.users| == |s.users|
    && r.cache == s.cache && r.registering == s.registering && r.renewing == s.renewing && r.sessions == s.sessions
    && r.log.accepted == s.log.accepted
    && (forall w: nat :: Mail(r, w) == if w == user then Mail(s, w)[k..] else Mail(s, w))
    && WrittenTo(r, sender, fp) == WrittenTo(s, sender, fp) + FromSender(Mail(s, user)[..k], sender)
  }

  lemma DrainedNone(s: Server, user: nat, sender: Name, fp: Name)
    ensures Drained(s, s, user, 0, sender, fp)
  {
    assert Mail(s, user)[..0] == [] && Mail(s, user)[0..] == Mail(s, user);
    assert WrittenTo(s, sender, fp) + [] == WrittenTo(s, sender, fp);
  }

  lemma DrainedOne(s: Server, i: nat, sender: Name, fp: Name)
    requires Sane(s) && i < |s.sessions| && IsObject(s, s.sessions[i].user, fp) && Mail(s, s.sessions[i].user) != []
    requires sender in s.cache.entries
    ensures Drained(s, Send(s, i), s.sessions[i].user, 1, sender, fp)
  {
    var user := s.sessions[i].user;
    var m := Mail(s, user)[0];
    var written := CheckContact(s, user, m.msg.sender);
    Sending(s, i);
    SentWrites(s, Send(s, i), user, written, sender, fp);
    assert Mail(s, user)[..1] == [] + [m];
    FromSenderSnoc([], m, sender);
  }

  lemma DrainedMore(s: Server, m: Server, r: Server, user: nat, k: nat, sender: Name, fp: Name)
    requires Drained(s, m, user, k, sender, fp) && Drained(m, r, user, 1, sender, fp)
    ensures Drained(s, r, user, k + 1, sender, fp)
  {
    var ms := Mail(s, user);
    var x := ms[k];
    assert ms[k..][..1] == [x] && ms[k..][1..] == ms[k + 1..];
    assert ms[..k + 1] == ms[..k] + [x];
    FromSenderConcat(ms[..k], [x], sender);
  }

  lemma DrainStep(c: Server, steps: seq<Step>, s: Server, q: Terms, i: nat, user: nat, sender: Name)
      returns (steps': seq<Step>, r: Server)
    requires Goes(c, steps, s, q) && i < |s.sessions| && s.sessions[i].user == user
    requires IsObject(s, user, q.fp) && Mail(s, user) != [] && sender in s.cache.entries
    ensures Goes(c, steps', r, q) && Drained(s, r, user, 1, sender, q.fp)
  {
    DrainedOne(s, i, sender, q.fp);
    GoesOn(c, steps, s, q, SendOne(i));
    steps', r := steps + [SendOne(i)], Send(s, i);
  }

  lemma {:induction false} Drain(c: Server, steps: seq<Step>, s: Server, q: Terms, i: nat, user: nat, k: nat,
                                 sender: Name)
      returns (steps': seq<Step>, r: Server)
    requires Goes(c, steps, s, q) && i < |s.sessions| && s.sessions[i].user == user
    requires IsObject(s, user, q.fp) && k <= |Mail(s, user)| && sender in s.cache.entries
    ensures Goes(c, steps', r, q) && Drained(s, r, user, k, sender, q.fp)
    decreases k
  {
    if k == 0 {
      DrainedNone(s, user, sender, q.fp);
      steps', r := steps, s;
    } else {
      var steps1, m := Drain(c, steps, s, q, i, user, k - 1, sender);
      steps', r := DrainStep(c, steps1, m, q, i, user, sender);
      DrainedMore(s, m, r, user, k - 1, sender, q.fp);
    }
  }

  // ---- what waits out of order ----

  /** Emptying the cached object's mailbox writes all that waits from the sender. */
  lemma WaitingLoses(c: Server, steps: seq<Step>, s: Server, q: Terms, u: nat, sender: Name)
      returns (steps': seq<Step>, r: Server)
    requires Goes(c, steps, s, q) && GetUser(s, q.fp) == Some(u) && sender in s.cache.entries
    requires !WaitsInOrder(s, sender, q.fp, u)
    ensures Goes(c, steps', r, q) && !OrderKept(r, sender, q.fp)
  {
    var steps1, s1 := Greet(c, steps, s, q, q.fp);
    UndisturbedOrder(s, s1, sender, q.fp, u);
    steps', r := Drain(c, steps1, s1, q, |s.sessions|, u, |Mail(s1, u)|, sender);
    assert Mail(s1, u)[..|Mail(s1, u)|] == Mail(s1, u);
  }

  // ---- a frame left behind ----

  /** The name is cached as `y`; session `i` of another object `w` has still to write message
      `k` of its mailbox, a frame of `sender`, who is cached. */
  ghost predicate Stranded(s: Server, fp: Name, y: nat, w: nat, i: nat, k: nat, sender: Name) {
    && GetUser(s, fp) == Some(y) && w != y && IsObject(s, w, fp)
    && i < |s.sessions| && s.sessions[i].user == w
    && k < |Mail(s, w)| && Mail(s, w)[k].msg.sender == sender
    && sender != Nobody && sender in s.cache.entries
  }

  lemma StrandedStays(s: Server, r: Server, fp: Name, y: nat, w: nat, i: nat, k: nat, sender: Name)
    requires Stranded(s, fp, y, w, i, k, sender) && Grows(s, r) && r.cache == s.cache && Mail(r, w) == Mail(s, w)
    ensures Stranded(r, fp, y, w, i, k, sender)
  {
  }

  lemma {:induction false} NewId(accepted: seq<Accepted>, other: int) returns (id: int)
    ensures id > other && forall i | 0 <= i < |accepted| :: accepted[i].frame.id < id
  {
    if accepted == [] {
      id := other + 1;
    } else {
      var n := |accepted| - 1;
      var before := NewId(accepted[..n], other);
      id := if accepted[n].frame.id >= before then accepted[n].frame.id + 1 else before;
      assert forall i | 0 <= i < n :: accepted[i] == accepted[..n][i];
    }
  }

  lemma {:induction false} AcceptedIds(accepted: seq<Accepted>, sender: Name, fp: Name, f: Frame)
    requires forall i | 0 <= i < |accepted| :: accepted[i].frame.id < f.id
    ensures f !in AcceptedFrom(accepted, sender, fp)
  {
    if accepted != [] {
      AcceptedIds(accepted[..|accepted| - 1], sender, fp, f);
    }
  }

  lemma SubsequenceMember<T>(a: seq<T>, b: seq<T>, x: T)
    requires Subsequence(a, b) && x in a
    ensures x in b
  {
    SubsequenceMultiset(a, b);
    assert x in multiset(a);
  }

  /** The last frame accepted was written, but not last. */
  lemma NotLast<T>(written: seq<T>, accepted: seq<T>, x: T)
    requires x in written && written[|written| - 1] != x && x !in accepted
    ensures !Subsequence(written, accepted + [x])
  {
    assert (accepted + [x])[..|accepted|] == accepted;
    if Subsequence(written, accepted) {
      SubsequenceMember(written, accepted, x);
    }
  }

  /** Besides, the cached object and the sender's have sessions. */
  ghost predicate BothReady(s: Server, fp: Name, y: nat, iy: nat, b: nat, ib: nat, sender: Name) {
    && iy < |s.sessions| && s.sessions[iy].user == y && IsObject(s, y, fp)
    && ib < |s.sessions| && s.sessions[ib].user == b && IsObject(s, b, sender)
  }

  lemma BothGreet(c: Server, steps: seq<Step>, s: Server, q: Terms, sender: Name)
      returns (steps': seq<Step>, r: Server, iy: nat, b: nat, ib: nat)
    requires Goes(c, steps, s, q) && q.fp in s.cache.entries && sender in s.cache.entries
    ensures Goes(c, steps', r, q) && Undisturbed(s, r) && r.cache == s.cache && r.registering == s.registering
    ensures r.renewing == s.renewing && BothReady(r, q.fp, s.cache.entries[q.fp].value, iy, b, ib, sender)
  {
    var steps1, s1 := Greet(c, steps, s, q, q.fp);
    steps', r := Greet(c, steps1, s1, q, sender);
    UndisturbedTransitive(s, s1, r);
    iy, b, ib := |s.sessions|, s.cache.entries[sender].value, |s1.sessions|;
  }

  /** A frame of the sender has been accepted and put into the empty mailbox of `y`. */
  ghost predicate Fresh(s: Server, r: Server, y: nat, sender: Name, fp: Name, f: Frame) {
    && Grows(s, r) && |r.users| == |s.users| && f.sender == sender && f.receiver == fp
    && r.cache == s.cache && r.registering == s.registering && r.renewing == s.renewing && r.sessions == s.sessions
    && WrittenTo(r, sender, fp) == WrittenTo(s, sender, fp)
    && AcceptedFrom(r.log.accepted, sender, fp) == AcceptedFrom(s.log.accepted, sender, fp) + [f]
    && |Mail(r, y)| == 1 && Mail(r, y)[0].msg == f
    && forall w: nat | w != y :: Mail(r, w) == Mail(s, w)
  }

  lemma FreshReceived(s: Server, r: Server, i: nat, user: nat, y: nat, f: Frame, sender: Name, fp: Name)
    requires TakesAuthentic(s) && Delivered(s, r, i, user, y, f) && r.renewing == s.renewing && Mail(s, y) == []
    requires f.sender == sender && f.receiver == fp
    ensures Fresh(s, r, y, sender, fp, f)
  {
    assert Grows(s, r);
    WrittenStays(s, r, sender, fp);
    AcceptedFromSnoc(s.log.accepted, Accepted(i, user, f, Enqueued(y)), sender, fp);
    assert Mail(r, y) == Mail(s, y) + [SessionMessage(Some(user), y, f)];
    assert forall w: nat | w != y :: Mail(r, w) == Mail(s, w) + [] == Mail(s, w);
  }

  lemma SendFresh(c: Server, steps: seq<Step>, s: Server, q: Terms, y: nat, iy: nat, b: nat, ib: nat, f: Frame,
                  sender: Name)
      returns (steps': seq<Step>, r: Server)
    requires Goes(c, steps, s, q) && BothReady(s, q.fp, y, iy, b, ib, sender) && GetUser(s, q.fp) == Some(y)
    requires Mail(s, y) == [] && f.sender == sender && f.receiver == q.fp
    ensures Goes(c, steps', r, q) && Fresh(s, r, y, sender, q.fp, f)
  {
    var x := Recv(ib, Parsed(f));
    Receives(s, ib, b, y, f);
    ReceiveFrame(s, ib, Parsed(f));
    GoesOn(c, steps, s, q, x);
    steps', r := steps + [x], Receive(s, ib, Parsed(f));
    FreshReceived(s, r, ib, b, y, f, sender, q.fp);
  }

  /** The cached object's mailbox is emptied, and a new frame goes into it. */
  lemma ClearAndSend(c: Server, steps: seq<Step>, s: Server, q: Terms, y: nat, iy: nat, b: nat, ib: nat, f: Frame,
                     sender: Name) returns (steps': seq<Step>, m: Server, r: Server)
    requires Goes(c, steps, s, q) && BothReady(s, q.fp, y, iy, b, ib, sender) && GetUser(s, q.fp) == Some(y)
    requires sender in s.cache.entries && f.sender == sender && f.receiver == q.fp
    ensures Drained(s, m, y, |Mail(s, y)|, sender, q.fp)
    ensures Goes(c, steps', r, q) && Fresh(m, r, y, sender, q.fp, f)
  {
    var steps1;
    steps1, m := Drain(c, steps, s, q, iy, y, |Mail(s, y)|, sender);
    steps', r := SendFresh(c, steps1, m, q, y, iy, b, ib, f, sender);
  }

  lemma FreshWritten(s: Server, r: Server, y: nat, sender: Name, fp: Name, f: Frame)
    requires Drained(s, r, y, 1, sender, fp) && |Mail(s, y)| == 1 && Mail(s, y)[0].msg == f && f.sender == sender
    ensures f in WrittenTo(r, sender, fp)
  {
    assert Mail(s, y)[..1] == [] + [Mail(s, y)[0]];
    FromSenderSnoc([], Mail(s, y)[0], sender);
  }

  lemma LastDrained(s: Server, r: Server, w: nat, k: nat, sender: Name, fp: Name)
    requires k < |Mail(s, w)| && Drained(s, r, w, k + 1, sender, fp) && Mail(s, w)[k].msg.sender == sender
    ensures WrittenTo(s, sender, fp) <= WrittenTo(r, sender, fp) && WrittenTo(r, sender, fp) != []
    ensures WrittenTo(r, sender, fp)[|WrittenTo(r, sender, fp)| - 1] == Mail(s, w)[k].msg
  {
    var ms := Mail(s, w);
    assert ms[..k + 1] == ms[..k] + [ms[k]];
    FromSenderSnoc(ms[..k], ms[k], sender);
  }

  /** The new frame is written first, the one left behind last. */
  lemma Overtake(c: Server, steps: seq<Step>, s: Server, q: Terms, y: nat, iy: nat, w: nat, i: nat, k: nat,
                 f: Frame, sender: Name) returns (steps': seq<Step>, r: Server)
    requires Goes(c, steps, s, q) && Stranded(s, q.fp, y, w, i, k, sender)
    requires iy < |s.sessions| && s.sessions[iy].user == y && IsObject(s, y, q.fp)
    requires |Mail(s, y)| == 1 && Mail(s, y)[0].msg == f && f.sender == sender && f != Mail(s, w)[k].msg
    ensures Goes(c, steps', r, q) && r.log.accepted == s.log.accepted
    ensures
      var written := WrittenTo(r, sender, q.fp);
      f in written && written[|written| - 1] != f
  {
    var steps1, s1 := DrainStep(c, steps, s, q, iy, y, sender);
    FreshWritten(s, s1, y, sender, q.fp, f);
    StrandedStays(s, s1, q.fp, y, w, i, k, sender);
    steps', r := Drain(c, steps1, s1, q, i, w, k + 1, sender);
    LastDrained(s1, r, w, k, sender, q.fp);
  }

  lemma OvertakeLoses(c: Server, steps: seq<Step>, m: Server, s: Server, q: Terms, y: nat, iy: nat, w: nat, i: nat,
                      k: nat, f: Frame, sender: Name) returns (steps': seq<Step>, r: Server)
    requires Goes(c, steps, s, q) && Stranded(s, q.fp, y, w, i, k, sender) && Fresh(m, s, y, sender, q.fp, f)
    requires iy < |s.sessions| && s.sessions[iy].user == y && IsObject(s, y, q.fp) && f != Mail(s, w)[k].msg
    requires f !in AcceptedFrom(m.log.accepted, sender, q.fp)
    ensures Goes(c, steps', r, q) && !OrderKept(r, sender, q.fp)
  {
    steps', r := Overtake(c, steps, s, q, y, iy, w, i, k, f, sender);
    NotLast(WrittenTo(r, sender, q.fp), AcceptedFrom(m.log.accepted, sender, q.fp), f);
  }

  lemma StrandedLoses(c: Server, steps: seq<Step>, s: Server, q: Terms, y: nat, w: nat, i: nat, k: nat, sender: Name)
      returns (steps': seq<Step>, r: Server)
    requires Goes(c, steps, s, q) && Stranded(s, q.fp, y, w, i, k, sender)
    ensures Goes(c, steps', r, q) && !OrderKept(r, sender, q.fp)
  {
    var steps1, s1, iy, b, ib := BothGreet(c, steps, s, q, sender);
    StrandedStays(s, s1, q.fp, y, w, i, k, sender);
    var id := NewId(s1.log.accepted, Mail(s1, w)[k].msg.id);
    var f := Frame(id, sender, q.fp, Other);
    AcceptedIds(s1.log.accepted, sender, q.fp, f);
    steps', r := StrandedReadyLoses(c, steps1, s1, q, y, iy, b, ib, w, i, k, f, sender);
  }

  lemma StrandedReadyLoses(c: Server, steps: seq<Step>, s: Server, q: Terms, y: nat, iy: nat, b: nat, ib: nat,
                           w: nat, i: nat, k: nat, f: Frame, sender: Name) returns (steps': seq<Step>, r: Server)
    requires Goes(c, steps, s, q) && Stranded(s, q.fp, y, w, i, k, sender)
    requires BothReady(s, q.fp, y, iy, b, ib, sender) && f.sender == sender && f.receiver == q.fp
    requires f.id != Mail(s, w)[k].msg.id && f !in AcceptedFrom(s.log.accepted, sender, q.fp)
    ensures Goes(c, steps', r, q) && !OrderKept(r, sender, q.fp)
  {
    var steps2, m, s2 := ClearAndSend(c, steps, s, q, y, iy, b, ib, f, sender);
    StrandedStays(s, m, q.fp, y, w, i, k, sender);
    StrandedStays(m, s2, q.fp, y, w, i, k, sender);
    steps', r := OvertakeLoses(c, steps2, m, s2, q, y, iy, w, i, k, f, sender);
  }

  // ---- a name to send with ----

  /** The name is cached, after a registration if it was not. */
  lemma Admit(c: Server, steps: seq<Step>, s: Server, q: Terms, name: Name) returns (steps': seq<Step>, r: Server)
    requires Goes(c, steps, s, q) && s.cache.chSet == [] && name != Nobody && (name != q.fp || name in s.cache.entries)
    ensures Goes(c, steps', r, q) && Undisturbed(s, r) && name in r.cache.entries && r.cache.chSet == []
    ensures GetUser(r, q.fp) == GetUser(s, q.fp) && r.registering == s.registering && r.renewing == s.renewing
  {
    if name in s.cache.entries {
      steps', r := steps, s;
    } else {
      steps', r := AdmitNew(c, steps, s, q, name);
    }
  }

  lemma AdmitNew(c: Server, steps: seq<Step>, s: Server, q: Terms, name: Name) returns (steps': seq<Step>, r: Server)
    requires Goes(c, steps, s, q) && s.cache.chSet == [] && name !in {Nobody, q.fp} && name !in s.cache.entries
    ensures Goes(c, steps', r, q)
    ensures
      var e := CacheSpec.Entry(|s.users|, q.now + q.life);
      r == s.(users := s.users + [NewUser(name)], cache := s.cache.(entries := s.cache.entries[name := e]))
  {
    RegisterSteps(s, name, q.life, q.now);
    steps', r := GoesThree(c, steps, s, q, TryRegister(name), QueueUser(|s.registering|, q.life), CacheSet(q.now));
  }

  // ---- the processing loop catches up ----

  function AfterSet(s: Server, now: int): Server {
    s.(cache := ProcessSet(s.cache, now))
  }

  lemma AfterSetCached(s: Server, now: int, fp: Name)
    requires s.cache.chSet != []
    ensures
      var r, head := AfterSet(s, now), s.cache.chSet[0];
      && Undisturbed(s, r) && |r.cache.chSet| < |s.cache.chSet| && r.cache.chSet == s.cache.chSet[1..]
      && GetUser(r, fp) == if head.key == fp then Some(head.value) else GetUser(s, fp)
  {
  }

  /** While all requests refer to `u`, so does the cache in the end. */
  lemma {:induction false} CatchUp(c: Server, steps: seq<Step>, s: Server, q: Terms, u: nat)
      returns (steps': seq<Step>, r: Server)
    requires Goes(c, steps, s, q) && GetUser(s, q.fp) == Some(u) && RefersOnlyTo(s, q.fp, u)
    ensures Goes(c, steps', r, q) && Undisturbed(s, r) && r.cache.chSet == [] && GetUser(r, q.fp) == Some(u)
    decreases |s.cache.chSet|
  {
    if s.cache.chSet == [] {
      steps', r := steps, s;
    } else {
      var s1 := AfterSet(s, q.now);
      AfterSetCached(s, q.now, q.fp);
      GoesOn(c, steps, s, q, CacheSet(q.now));
      CachingKeepsReferences(s, CacheSet(q.now), q.fp, u);
      steps', r := CatchUp(c, steps + [CacheSet(q.now)], s1, q, u);
      UndisturbedTransitive(s, s1, r);
    }
  }

  /** A registration or a renewal under way is for `y`. */
  ghost predicate UnderWay(s: Server, fp: Name, y: nat) {
    || (exists k :: 0 <= k < |s.registering| && IsObject(s, s.registering[k], fp) && s.registering[k] == y)
    || (exists k :: 0 <= k < |s.renewing| && s.renewing[k] == (fp, y))
  }

  ghost predicate RequestedFor(s: Server, fp: Name, y: nat) {
    exists k :: 0 <= k < |s.cache.chSet| && s.cache.chSet[k].key == fp && s.cache.chSet[k].value == y
  }

  /** The cache names `x`, and something else refers to another object. */
  ghost predicate Torn(s: Server, fp: Name, x: nat, y: nat) {
    GetUser(s, fp) == Some(x) && x != y && (UnderWay(s, fp, y) || RequestedFor(s, fp, y))
  }

  lemma NotOnlyTo(s: Server, fp: Name, u: nat) returns (y: nat)
    requires GetUser(s, fp) == Some(u) && !RefersOnlyTo(s, fp, u)
    ensures Torn(s, fp, u, y)
  {
    if i :| 0 <= i < |s.cache.chSet| && s.cache.chSet[i].key == fp && s.cache.chSet[i].value != u {
      y := s.cache.chSet[i].value;
      assert RequestedFor(s, fp, y);
    } else if i :| 0 <= i < |s.registering| && IsObject(s, s.registering[i], fp) && s.registering[i] != u {
      y := s.registering[i];
      assert UnderWay(s, fp, y);
    } else {
      var i :| 0 <= i < |s.renewing| && s.renewing[i].0 == fp && s.renewing[i].1 != u;
      y := s.renewing[i].1;
      assert s.renewing[i] == (fp, y);
      assert UnderWay(s, fp, y);
    }
  }

  /** A renewal has read what is cached, and has not written it back yet. */
  lemma ReadForRenewal(c: Server, steps: seq<Step>, s: Server, q: Terms, x: nat) returns (steps': seq<Step>, r: Server)
    requires Goes(c, steps, s, q) && GetUser(s, q.fp) == Some(x)
    ensures Goes(c, steps', r, q) && r == s.(renewing := s.renewing + [(q.fp, x)]) && UnderWay(r, q.fp, x)
  {
    GoesOn(c, steps, s, q, RenewRead(x));
    steps', r := steps + [RenewRead(x)], RenewReadStep(s, x);
    assert r.renewing[|s.renewing|] == (q.fp, x);
  }

  lemma UnderWayStays(s: Server, now: int, fp: Name, y: nat)
    requires UnderWay(s, fp, y)
    ensures UnderWay(AfterSet(s, now), fp, y)
  {
  }

  /** The next set changes what is cached; a renewal has read that before. */
  lemma TearAway(c: Server, steps: seq<Step>, s: Server, q: Terms, x: nat) returns (steps': seq<Step>, r: Server)
    requires Goes(c, steps, s, q) && GetUser(s, q.fp) == Some(x) && s.cache.chSet != []
    requires s.cache.chSet[0].key == q.fp && s.cache.chSet[0].value != x
    ensures Goes(c, steps', r, q) && Undisturbed(s, r) && Torn(r, q.fp, s.cache.chSet[0].value, x)
    ensures |r.cache.chSet| < |s.cache.chSet|
  {
    var steps1, s1 := ReadForRenewal(c, steps, s, q, x);
    GoesOn(c, steps1, s1, q, CacheSet(q.now));
    AfterSetCached(s1, q.now, q.fp);
    UnderWayStays(s1, q.now, q.fp, x);
    steps', r := steps1 + [CacheSet(q.now)], AfterSet(s1, q.now);
  }

  lemma TearOn(c: Server, steps: seq<Step>, s: Server, q: Terms, x: nat, y: nat)
      returns (steps': seq<Step>, r: Server, x': nat, y': nat)
    requires Goes(c, steps, s, q) && Torn(s, q.fp, x, y) && s.cache.chSet != []
    ensures Goes(c, steps', r, q) && Undisturbed(s, r) && Torn(r, q.fp, x', y')
    ensures |r.cache.chSet| < |s.cache.chSet|
  {
    var head := s.cache.chSet[0];
    if head.key == q.fp && head.value != x {
      steps', r := TearAway(c, steps, s, q, x);
      x', y' := head.value, x;
    } else {
      GoesOn(c, steps, s, q, CacheSet(q.now));
      AfterSetCached(s, q.now, q.fp);
      steps', r, x', y' := steps + [CacheSet(q.now)], AfterSet(s, q.now), x, y;
      TornStays(s, q.now, q.fp, x, y);
    }
  }

  lemma TornStays(s: Server, now: int, fp: Name, x: nat, y: nat)
    requires Torn(s, fp, x, y) && s.cache.chSet != []
    requires s.cache.chSet[0].key != fp || s.cache.chSet[0].value == x
    ensures UnderWay(AfterSet(s, now), fp, y) || RequestedFor(AfterSet(s, now), fp, y)
  {
    if UnderWay(s, fp, y) {
      UnderWayStays(s, now, fp, y);
    } else {
      var k :| 0 <= k < |s.cache.chSet| && s.cache.chSet[k].key == fp && s.cache.chSet[k].value == y;
      assert AfterSet(s, now).cache.chSet[k - 1] == s.cache.chSet[k];
    }
  }

  lemma {:induction false} CatchUpTorn(c: Server, steps: seq<Step>, s: Server, q: Terms, x: nat, y: nat)
      returns (steps': seq<Step>, r: Server, x': nat, y': nat)
    requires Goes(c, steps, s, q) && Torn(s, q.fp, x, y)
    ensures Goes(c, steps', r, q) && Undisturbed(s, r) && r.cache.chSet == [] && Torn(r, q.fp, x', y')
    decreases |s.cache.chSet|
  {
    if s.cache.chSet == [] {
      steps', r, x', y' := steps, s, x, y;
    } else {
      var steps1, s1, x1, y1 := TearOn(c, steps, s, q, x, y);
      steps', r, x', y' := CatchUpTorn(c, steps1, s1, q, x1, y1);
      UndisturbedTransitive(s, s1, r);
    }
  }

  // ---- the cache changes over ----

  lemma SwitchByQueue(s: Server, k: nat, life: int, now: int, fp: Name)
    requires InRange(s) && s.cache.chSet == [] && k < |s.registering| && IsObject(s, s.registering[k], fp)
    ensures
      var r, y := AfterSet(QueueUserStep(s, k, life), now), s.registering[k];
      && Undisturbed(s, r) && r.sessions == s.sessions
      && r.cache.entries == s.cache.entries[fp := CacheSpec.Entry(y, now + life)]
  {
  }

  lemma SwitchByRenewal(s: Server, k: nat, life: int, now: int)
    requires s.cache.chSet == [] && k < |s.renewing|
    ensures
      var r := AfterSet(RenewWriteStep(s, k, life), now);
      && Undisturbed(s, r) && r.sessions == s.sessions
      && r.cache.entries == s.cache.entries[s.renewing[k].0 := CacheSpec.Entry(s.renewing[k].1, now + life)]
  {
  }

  lemma GoesTwo(c: Server, steps: seq<Step>, s: Server, q: Terms, x: Step, y: Step)
      returns (steps': seq<Step>, r: Server)
    requires Goes(c, steps, s, q) && Plain(x, q.now, q.life, q.fp) && Plain(y, q.now, q.life, q.fp)
    ensures Goes(c, steps', r, q) && r == Next(Next(s, x), y)
  {
    GoesOn(c, steps, s, q, x);
    steps', r := steps + [x], Next(s, x);
    GoesOn(c, steps', r, q, y);
    steps', r := steps' + [y], Next(r, y);
  }

  /** What is under way arrives in the cache. */
  lemma Switch(c: Server, steps: seq<Step>, s: Server, q: Terms, y: nat) returns (steps': seq<Step>, r: Server)
    requires Goes(c, steps, s, q) && UnderWay(s, q.fp, y) && s.cache.chSet == []
    ensures Goes(c, steps', r, q) && Undisturbed(s, r) && r.sessions == s.sessions
    ensures r.cache.entries == s.cache.entries[q.fp := CacheSpec.Entry(y, q.now + q.life)]
  {
    if k :| 0 <= k < |s.registering| && IsObject(s, s.registering[k], q.fp) && s.registering[k] == y {
      steps', r := SwitchQueued(c, steps, s, q, k);
    } else {
      var k :| 0 <= k < |s.renewing| && s.renewing[k] == (q.fp, y);
      steps', r := SwitchRenewed(c, steps, s, q, k);
    }
  }

  lemma SwitchQueued(c: Server, steps: seq<Step>, s: Server, q: Terms, k: nat) returns (steps': seq<Step>, r: Server)
    requires Goes(c, steps, s, q) && s.cache.chSet == [] && k < |s.registering| && IsObject(s, s.registering[k], q.fp)
    ensures Goes(c, steps', r, q) && r == AfterSet(QueueUserStep(s, k, q.life), q.now)
    ensures Undisturbed(s, r) && r.sessions == s.sessions
    ensures r.cache.entries == s.cache.entries[q.fp := CacheSpec.Entry(s.registering[k], q.now + q.life)]
  {
    SwitchByQueue(s, k, q.life, q.now, q.fp);
    steps', r := GoesTwo(c, steps, s, q, QueueUser(k, q.life), CacheSet(q.now));
  }

  lemma SwitchRenewed(c: Server, steps: seq<Step>, s: Server, q: Terms, k: nat) returns (steps': seq<Step>, r: Server)
    requires Goes(c, steps, s, q) && s.cache.chSet == [] && k < |s.renewing|
    ensures Goes(c, steps', r, q) && r == AfterSet(RenewWriteStep(s, k, q.life), q.now)
    ensures Undisturbed(s, r) && r.sessions == s.sessions
    ensures r.cache.entries == s.cache.entries[s.renewing[k].0 := CacheSpec.Entry(s.renewing[k].1, q.now + q.life)]
  {
    SwitchByRenewal(s, k, q.life, q.now);
    steps', r := GoesTwo(c, steps, s, q, RenewWrite(k, q.life), CacheSet(q.now));
  }

  function SomeoneElse(fp: Name): (name: Name)
    ensures name != Nobody && name != fp
  {
    if fp == Fingerprint(0) then Fingerprint(1) else Fingerprint(0)
  }

  /** A frame waits in the mailbox of what was cached when the cache changes over. */
  lemma LeaveBehind(c: Server, steps: seq<Step>, s: Server, q: Terms, x: nat, ix: nat, y: nat, sender: Name)
      returns (steps': seq<Step>, r: Server)
    requires Goes(c, steps, s, q) && GetUser(s, q.fp) == Some(x) && x != y && UnderWay(s, q.fp, y)
    requires s.cache.chSet == [] && ix < |s.sessions| && s.sessions[ix].user == x && IsObject(s, x, q.fp)
    requires |Mail(s, x)| == 1 && Mail(s, x)[0].msg.sender == sender
    requires sender in s.cache.entries && sender != q.fp && sender != Nobody
    ensures Goes(c, steps', r, q) && Stranded(r, q.fp, y, x, ix, 0, sender)
  {
    steps', r := Switch(c, steps, s, q, y);
  }

  lemma UnderWayAt(s: Server, r: Server, fp: Name, y: nat)
    requires UnderWay(s, fp, y) && r.registering == s.registering && r.renewing == s.renewing && Grows(s, r)
    ensures UnderWay(r, fp, y)
  {
    if k :| 0 <= k < |s.registering| && IsObject(s, s.registering[k], fp) && s.registering[k] == y {
      assert IsObject(r, r.registering[k], fp);
    } else {
      var k :| 0 <= k < |s.renewing| && s.renewing[k] == (fp, y);
      assert r.renewing[k] == (fp, y);
    }
  }

  lemma SendAndLeave(c: Server, steps: seq<Step>, s: Server, q: Terms, x: nat, ix: nat, b: nat, ib: nat, y: nat,
                     sender: Name) returns (steps': seq<Step>, r: Server)
    requires Goes(c, steps, s, q) && GetUser(s, q.fp) == Some(x) && x != y && UnderWay(s, q.fp, y)
    requires s.cache.chSet == [] && BothReady(s, q.fp, x, ix, b, ib, sender)
    requires sender in s.cache.entries && sender != q.fp && sender != Nobody
    ensures Goes(c, steps', r, q) && Stranded(r, q.fp, y, x, ix, 0, sender)
  {
    var f := Frame(0, sender, q.fp, Other);
    var steps1, m, s1 := ClearAndSend(c, steps, s, q, x, ix, b, ib, f, sender);
    UnderWayAt(s, m, q.fp, y);
    UnderWayAt(m, s1, q.fp, y);
    steps', r := LeaveBehind(c, steps1, s1, q, x, ix, y, sender);
  }

  lemma TornLoses(c: Server, steps: seq<Step>, s: Server, q: Terms, x: nat, y: nat)
      returns (steps': seq<Step>, r: Server)
    requires Goes(c, steps, s, q) && Torn(s, q.fp, x, y) && s.cache.chSet == []
    ensures Goes(c, steps', r, q) && !OrderKept(r, SomeoneElse(q.fp), q.fp)
  {
    var sender := SomeoneElse(q.fp);
    var steps1, s1 := Admit(c, steps, s, q, sender);
    UnderWayAt(s, s1, q.fp, y);
    var steps2, s2, ix, b, ib := BothGreet(c, steps1, s1, q, sender);
    UnderWayAt(s1, s2, q.fp, y);
    var steps3, s3 := SendAndLeave(c, steps2, s2, q, x, ix, b, ib, y, sender);
    steps', r := StrandedLoses(c, steps3, s3, q, y, x, ix, 0, sender);
  }

  // ---- every unsettled state can lose the order ----

  lemma NotOnlyLoses(c: Server, steps: seq<Step>, s: Server, q: Terms, u: nat) returns (steps': seq<Step>, r: Server)
    requires Goes(c, steps, s, q) && GetUser(s, q.fp) == Some(u) && !RefersOnlyTo(s, q.fp, u)
    ensures Goes(c, steps', r, q) && !OrderKept(r, SomeoneElse(q.fp), q.fp)
  {
    var y := NotOnlyTo(s, q.fp, u);
    var steps1, s1, x1, y1 := CatchUpTorn(c, steps, s, q, u, y);
    steps', r := TornLoses(c, steps1, s1, q, x1, y1);
  }

  /** The processing loop catches up, and the sender is cached. */
  lemma Prepare(c: Server, steps: seq<Step>, s: Server, q: Terms, u: nat, sender: Name)
      returns (steps': seq<Step>, r: Server)
    requires Goes(c, steps, s, q) && GetUser(s, q.fp) == Some(u) && RefersOnlyTo(s, q.fp, u) && sender != Nobody
    ensures Goes(c, steps', r, q) && Undisturbed(s, r) && GetUser(r, q.fp) == Some(u) && sender in r.cache.entries
  {
    var steps1, s1 := CatchUp(c, steps, s, q, u);
    steps', r := Admit(c, steps1, s1, q, sender);
    UndisturbedTransitive(s, s1, r);
  }

  lemma OutOfOrderLoses(c: Server, steps: seq<Step>, s: Server, q: Terms, u: nat, sender: Name)
      returns (steps': seq<Step>, r: Server)
    requires Goes(c, steps, s, q) && GetUser(s, q.fp) == Some(u) && RefersOnlyTo(s, q.fp, u)
    requires sender != Nobody && !WaitsInOrder(s, sender, q.fp, u)
    ensures Goes(c, steps', r, q) && !OrderKept(r, sender, q.fp)
  {
    var steps1, s1 := Prepare(c, steps, s, q, u, sender);
    UndisturbedOrder(s, s1, sender, q.fp, u);
    steps', r := WaitingLoses(c, steps1, s1, q, u, sender);
  }

  lemma NotSilentLoses(c: Server, steps: seq<Step>, s: Server, q: Terms, u: nat)
      returns (steps': seq<Step>, r: Server, sender: Name)
    requires Goes(c, steps, s, q) && GetUser(s, q.fp) == Some(u) && RefersOnlyTo(s, q.fp, u)
    requires !OthersSilent(s, q.fp, u)
    ensures Goes(c, steps', r, q) && sender != Nobody && !OrderKept(r, sender, q.fp)
  {
    var i :| 0 <= i < |s.sessions| && s.sessions[i].user != u && IsObject(s, s.sessions[i].user, q.fp)
             && !NoFrames(Mail(s, s.sessions[i].user));
    var w := s.sessions[i].user;
    var k :| 0 <= k < |Mail(s, w)| && Mail(s, w)[k].sender.Some?;
    assert Authentic(s, w, Mail(s, w)[k]);
    sender := Mail(s, w)[k].msg.sender;
    var steps1, s1 := Prepare(c, steps, s, q, u, sender);
    steps', r := StrandedLoses(c, steps1, s1, q, u, w, i, k, sender);
  }

  lemma UnsettledLoses(c: Server, steps: seq<Step>, s: Server, q: Terms)
      returns (steps': seq<Step>, r: Server, sender: Name)
    requires Goes(c, steps, s, q) && q.fp in s.cache.entries && !Settled(s, q.fp)
    ensures Goes(c, steps', r, q) && sender != Nobody && !OrderKept(r, sender, q.fp)
  {
    var u := s.cache.entries[q.fp].value;
    if !RefersOnlyTo(s, q.fp, u) {
      steps', r := NotOnlyLoses(c, steps, s, q, u);
      sender := SomeoneElse(q.fp);
    } else if !OthersSilent(s, q.fp, u) {
      steps', r, sender := NotSilentLoses(c, steps, s, q, u);
    } else {
      sender :| sender != Nobody && !WaitsInOrder(s, sender, q.fp, u);
      steps', r := OutOfOrderLoses(c, steps, s, q, u, sender);
    }
  }
}
