/**
  Tools for building runs of the server: from one state a list of steps leads to another,
  and what registrations, handshakes, received frames and sends do on the way.
*/
module RelayTrace {
  import opened Basics
  import opened CacheSpec
  import opened Frames
  import opened Relay
  import opened RelayLaws

  ghost predicate StepTo(s: Server, x: Step, r: Server) {
    InRange(s) && r == Next(s, x)
  }

  /** The states that `steps` goes through. */
  ghost predicate IsTrace(trace: seq<Server>, steps: seq<Step>) {
    |trace| == |steps| + 1 && forall k | 0 <= k < |steps| :: StepTo(trace[k], steps[k], trace[k + 1])
  }

  /** From `c` the steps lead to `s`. */
  ghost predicate Leads(c: Server, steps: seq<Step>, s: Server) {
    InRange(s) && exists trace :: IsTrace(trace, steps) && trace[0] == c && trace[|steps|] == s
  }

  lemma LeadsNowhere(c: Server)
    requires InRange(c)
    ensures Leads(c, [], c)
  {
    assert IsTrace([c], []);
  }

  lemma LeadsOn(c: Server, steps: seq<Step>, s: Server, x: Step)
    requires Leads(c, steps, s)
    ensures Leads(c, steps + [x], Next(s, x))
  {
    var trace :| IsTrace(trace, steps) && trace[0] == c && trace[|steps|] == s;
    var r := Next(s, x);
    assert IsTrace(trace + [r], steps + [x]);
  }

  lemma LeadsRun(run: seq<Step>, steps: seq<Step>, s: Server)
    requires Leads(Run(run), steps, s)
    ensures Run(run + steps) == s
  {
    var trace :| IsTrace(trace, steps) && trace[0] == Run(run) && trace[|steps|] == s;
    TraceRun(run, trace, steps, |steps|);
    assert steps[..|steps|] == steps;
  }

  lemma {:induction false} TraceRun(run: seq<Step>, trace: seq<Server>, steps: seq<Step>, n: nat)
    requires IsTrace(trace, steps) && trace[0] == Run(run) && n <= |steps|
    ensures Run(run + steps[..n]) == trace[n]
  {
    if n == 0 {
      assert run + steps[..0] == run;
    } else {
      TraceRun(run, trace, steps, n - 1);
      TraceStep(trace, steps, n);
      Extend(run, steps, n);
      RunOn(run + steps[..n - 1], run + steps[..n], steps[n - 1], trace[n - 1], trace[n]);
    }
  }

  lemma TraceStep(trace: seq<Server>, steps: seq<Step>, n: nat)
    requires IsTrace(trace, steps) && 0 < n <= |steps|
    ensures StepTo(trace[n - 1], steps[n - 1], trace[n])
  {
    var k := n - 1;
    assert StepTo(trace[k], steps[k], trace[k + 1]);
  }

  lemma Extend<T>(a: seq<T>, b: seq<T>, n: nat)
    requires 0 < n <= |b|
    ensures a + b[..n] == a + b[..n - 1] + [b[n - 1]]
  {
  }

  lemma RunOn(before: seq<Step>, after: seq<Step>, x: Step, s: Server, r: Server)
    requires after == before + [x] && Run(before) == s && StepTo(s, x, r)
    ensures Run(after) == r
  {
    assert after[..|after| - 1] == before;
  }

  lemma {:induction false} LaterThanAll(m: map<Name, CacheSpec.Entry<nat>>) returns (t: int)
    ensures forall k | k in m :: m[k].expire < t
    decreases m.Keys
  {
    if m.Keys == {} {
      t := 0;
    } else {
      var k :| k in m.Keys;
      assert (m - {k}).Keys < m.Keys;
      var t' := LaterThanAll(m - {k});
      t := if t' > m[k].expire then t' else m[k].expire + 1;
      assert forall j | j in m && j != k :: j in m - {k} && m[j] == (m - {k})[j];
    }
  }

  // ---- steps ----

  /** Queued as the only set request, a new user is cached at once. */
  lemma RegisterSteps(s: Server, fp: Name, lifeTime: int, now: int)
    requires InRange(s) && s.cache.chSet == [] && fp != Nobody && fp !in s.cache.entries
    ensures
      var r := Next(Next(Next(s, TryRegister(fp)), QueueUser(|s.registering|, lifeTime)), CacheSet(now));
      var e := CacheSpec.Entry(|s.users|, now + lifeTime);
      r == s.(users := s.users + [NewUser(fp)], cache := s.cache.(entries := s.cache.entries[fp := e]))
  {
    TryRegisters(s, fp);
    QueueAndSet(TryRegisterStep(s, fp), |s.registering|, lifeTime, now);
    assert TryRegisterStep(s, fp).registering[..|s.registering|] == s.registering;
  }

  lemma TryRegisters(s: Server, fp: Name)
    requires fp != Nobody && fp !in s.cache.entries
    ensures TryRegisterStep(s, fp) == s.(users := s.users + [NewUser(fp)], registering := s.registering + [|s.users|])
  {
  }

  lemma QueueAndSet(s: Server, g: nat, lifeTime: int, now: int)
    requires InRange(s) && |s.registering| == g + 1 && s.cache.chSet == []
    ensures
      var r := Next(Next(s, QueueUser(g, lifeTime)), CacheSet(now));
      var u := s.registering[g];
      r == s.(registering := s.registering[..g],
              cache := s.cache.(entries := s.cache.entries[s.users[u].fp := CacheSpec.Entry(u, now + lifeTime)]))
  {
  }

  /** Session `i` of user object `user` has a frame for user object `to`, who has room. */
  ghost predicate Deliverable(s: Server, i: nat, user: nat, to: nat, f: Frame) {
    && InRange(s) && i < |s.sessions| && s.sessions[i].user == user
    && f.sender == s.users[user].fp
    && GetUser(s, f.receiver) == Some(to) && |s.users[to].mailbox| < MAILBOX_SLOTS
  }

  /** Nothing but mailboxes, contacts and attempts to post may differ. */
  ghost predicate SameNames(s: Server, r: Server) {
    && r.cache == s.cache && r.registering == s.registering && r.sessions == s.sessions && |r.users| == |s.users|
    && forall u | 0 <= u < |s.users| :: r.users[u].fp == s.users[u].fp && r.users[u].blackList == s.users[u].blackList
  }

  /** The effect of a delivered frame, from `s` to `r`. */
  ghost predicate Delivered(s: Server, r: Server, i: nat, user: nat, to: nat, f: Frame) {
    && SameNames(s, r) && r.log.takes == s.log.takes
    && r.log.accepted == s.log.accepted + [Accepted(i, user, f, Enqueued(to))]
    && forall u: nat :: Mail(r, u) == Mail(s, u) + if u == to then [SessionMessage(Some(user), to, f)] else []
  }

  lemma Receives(s: Server, i: nat, user: nat, to: nat, f: Frame)
    requires Deliverable(s, i, user, to, f)
    ensures Delivered(s, Receive(s, i, Parsed(f)), i, user, to, f)
  {
  }

  /** The effect of a message written, from `s` to `r`. */
  ghost predicate WrittenOut(s: Server, r: Server, user: nat, m: SessionMessage) {
    && SameNames(s, r) && r.log.accepted == s.log.accepted
    && r.log.takes == s.log.takes + [Take(user, m, true)]
    && forall u: nat :: Mail(r, u) == if u == user then [] else Mail(s, u)
  }

  lemma Sends(s: Server, i: nat, user: nat, m: SessionMessage)
    requires InRange(s) && i < |s.sessions| && s.sessions[i].user == user && s.users[user].blackList == {}
    requires s.users[user].mailbox == [m] && m.msg.sender in s.cache.entries
    ensures WrittenOut(s, Send(s, i), user, m)
  {
  }

  lemma Greets(s: Server, fp: Name, u: nat, conn: nat)
    requires InRange(s) && GetUser(s, fp) == Some(u) && s.users[u].fp == fp
    ensures HandshakeStep(s, fp, fp, conn) == s.(sessions := s.sessions + [Session(u, fp, conn)])
  {
  }

  lemma RegisterOne(c: Server, steps: seq<Step>, s: Server, fp: Name, lifeTime: int, now: int) returns (r: Server)
    requires Leads(c, steps, s) && s.cache.chSet == [] && fp != Nobody && fp !in s.cache.entries
    ensures Leads(c, steps + [TryRegister(fp), QueueUser(|s.registering|, lifeTime), CacheSet(now)], r)
    ensures
      var e := CacheSpec.Entry(|s.users|, now + lifeTime);
      r == s.(users := s.users + [NewUser(fp)], cache := s.cache.(entries := s.cache.entries[fp := e]))
  {
    var x, y, z := TryRegister(fp), QueueUser(|s.registering|, lifeTime), CacheSet(now);
    r := Next(Next(Next(s, x), y), z);
    RegisterSteps(s, fp, lifeTime, now);
    LeadsOn(c, steps, s, x);
    LeadsOn(c, steps + [x], Next(s, x), y);
    LeadsOn(c, steps + [x] + [y], Next(Next(s, x), y), z);
    assert steps + [x] + [y] + [z] == steps + [x, y, z];
  }
}
