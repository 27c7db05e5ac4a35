/**
  What single steps of the server change, and nothing else; and what follows over runs: who
  is whose contact, which user objects there are, and that the cache of the server is a store
  of `CacheSpec` with all its laws.
*/
module RelayEffects {
  import opened Basics
  import opened CacheSpec
  import opened Frames
  import opened Relay
  import opened RelayLaws

  // ---- the loops ----

  /** One message was tried on a mailbox, and stored if it had room. */
  ghost predicate Tried(s: Server, r: Server, to: nat, m: SessionMessage) {
    && to < |s.users| && |r.users| == |s.users|
    && r.users[to] == s.users[to].(mailbox := r.users[to].mailbox)
    && Mail(r, to) == Mail(s, to) + (if |Mail(s, to)| < 100 then [m] else [])
    && (forall u | 0 <= u < |s.users| && u != to :: r.users[u] == s.users[u])
    && r.log == s.log.(posts := s.log.posts + [Post(to, m, |Mail(s, to)| < 100)])
    && r == s.(users := r.users, log := r.log)
  }

  /** Bytes that do not parse, and frames that name another sender, are reported to the user of
      the session, and go nowhere else. */
  lemma RefusalOutcome(s: Server, i: nat, input: Input)
    requires InRange(s) && i < |s.sessions|
    ensures
      var user := s.sessions[i].user;
      var fp := s.users[user].fp;
      && (input.Malformed? ==>
            Tried(s, Next(s, Recv(i, input)), user,
                  SessionMessage(None, user, Frame(0, Nobody, fp, Error(InvalidMessage, input.id)))))
      && (input.Parsed? && input.frame.sender != fp ==>
            Tried(s, Next(s, Recv(i, input)), user,
                  SessionMessage(None, user, Frame(0, Nobody, fp, Error(VerifyError, input.frame.id)))))
  {
  }

  /** A frame that names the user of its session is accepted, with what became of it. */
  lemma AcceptanceOutcome(s: Server, i: nat, f: Frame)
    requires InRange(s) && i < |s.sessions| && f.sender == s.users[s.sessions[i].user].fp
    ensures
      var user, r, to := s.sessions[i].user, Next(s, Recv(i, Parsed(f))), GetUser(s, f.receiver);
      && r.log.accepted == s.log.accepted +
           [Accepted(i, user, f, match to
                                 case None => Unknown
                                 case Some(u) => if |Mail(s, u)| < 100 then Enqueued(u) else Full(u))]
      && r.log.takes == s.log.takes && |r.users| == |s.users|
      && (forall u | 0 <= u < |s.users| ::
            r.users[u] == s.users[u].(mailbox := r.users[u].mailbox, contacts := r.users[u].contacts))
      && r == s.(users := r.users, log := r.log)
  {
  }

  /** A send loop takes the oldest message out, and writes it exactly when its sender is cached
      and not on the black list. */
  lemma SendingOutcome(s: Server, i: nat)
    requires InRange(s) && i < |s.sessions|
    ensures
      var user := s.sessions[i].user;
      var u := s.users[user];
      if u.mailbox == [] then Next(s, SendOne(i)) == s && Written(s, i) == None
      else
        var m := u.mailbox[0];
        var written := m.msg.sender in s.cache.entries && m.msg.sender !in u.blackList;
        && Written(s, i) == (if written then Some(m.msg) else None)
        && Next(s, SendOne(i)) == s.(users := s.users[user := u.(mailbox := u.mailbox[1..])],
                                     log := s.log.(takes := s.log.takes + [Take(user, m, written)]))
  {
  }

  // ---- sessions ----

  /** A handshake makes a session exactly when the claimed key is cached and its signer is the
      user found; a joined session has the earlier one's user and the other's connection. */
  lemma SessionOutcome(s: Server, claimed: Name, signer: Name, conn: nat, i: nat, j: nat)
    requires InRange(s)
    ensures
      var made := claimed in s.cache.entries && s.users[s.cache.entries[claimed].value].fp == signer;
      Next(s, Handshake(claimed, signer, conn)) ==
        if made then s.(sessions := s.sessions + [Session(s.cache.entries[claimed].value, signer, conn)]) else s
    ensures
      var joined := i < |s.sessions| && j < |s.sessions| && s.sessions[i].signer == s.sessions[j].signer;
      Next(s, Join(i, j)) ==
        if joined
        then s.(sessions := s.sessions + [Session(s.sessions[i].user, s.sessions[i].signer, s.sessions[j].conn)])
        else s
  {
  }

  // ---- contacts ----

  ghost predicate HasRoom(s: Server, u: nat) {
    u < |s.users| && |s.users[u].contacts| < s.users[u].contactLimit
  }

  /** The step enters `fp` in the contacts of `u`: `u` sends a frame to it while it is cached, or
      the two are introduced and there is room. */
  ghost predicate Enters(s: Server, step: Step, u: nat, fp: Name) {
    || (step.Recv? && step.input.Parsed? && step.session < |s.sessions| && s.sessions[step.session].user == u
        && u < |s.users| && step.input.frame.sender == s.users[u].fp && step.input.frame.receiver == fp
        && fp in s.cache.entries)
    || (step.Introduce? && step.k < |s.registering| && HasRoom(s, step.contact) && s.registering[step.k] < |s.users|
        && ((u == step.contact && fp == s.users[s.registering[step.k]].fp)
            || (u == s.registering[step.k] && HasRoom(s, u) && fp == s.users[step.contact].fp)))
  }

  ghost predicate IsContact(s: Server, u: nat, fp: Name) {
    u < |s.users| && fp in s.users[u].contacts
  }

  lemma DispatchContacts(s: Server, i: nat, f: Frame, u: nat, fp: Name)
    requires InRange(s) && i < |s.sessions|
    ensures
      IsContact(Dispatch(s, i, f), u, fp) <==>
        IsContact(s, u, fp) || (u == s.sessions[i].user && fp == f.receiver && fp in s.cache.entries)
  {
    var user, accepted := s.sessions[i].user, Accept(s, i, f);
    match GetUser(s, f.receiver)
    case None => SameContacts(accepted, PostError(accepted, user, ReceiverUnknown, f.id), u, fp);
    case Some(to) =>
      var noted := NoteContact(accepted, user, f.receiver);
      var posted := PostTo(noted, to, SessionMessage(Some(user), to, f));
      SameContacts(noted, posted, u, fp);
      SameContacts(posted, PostError(posted, user, MessageNotDelivered, f.id), u, fp);
  }

  lemma SameContacts(s: Server, r: Server, u: nat, fp: Name)
    requires SameButMail(s, r)
    ensures IsContact(r, u, fp) <==> IsContact(s, u, fp)
  {
    if u < |s.users| {
      assert r.users[u].(mailbox := []) == s.users[u].(mailbox := []);
    }
  }

  lemma ReceiveContacts(s: Server, i: nat, input: Input, u: nat, fp: Name)
    requires InRange(s) && i < |s.sessions|
    ensures
      IsContact(Receive(s, i, input), u, fp) <==> IsContact(s, u, fp) || Enters(s, Recv(i, input), u, fp)
  {
    if input.Parsed? && input.frame.sender == s.users[s.sessions[i].user].fp {
      DispatchContacts(s, i, input.frame, u, fp);
    } else {
      SameContacts(s, Receive(s, i, input), u, fp);
    }
  }

  lemma IntroduceContacts(s: Server, k: nat, contact: nat, u: nat, fp: Name)
    requires InRange(s)
    ensures
      IsContact(IntroduceStep(s, k, contact), u, fp) <==> IsContact(s, u, fp) || Enters(s, Introduce(k, contact), u, fp)
  {
  }

  lemma StepContacts(s: Server, step: Step, u: nat, fp: Name)
    requires InRange(s)
    ensures IsContact(Next(s, step), u, fp) <==> IsContact(s, u, fp) || Enters(s, step, u, fp)
  {
    match step
    case Recv(i, input) => if i < |s.sessions| { ReceiveContacts(s, i, input, u, fp); }
    case Introduce(k, contact) => IntroduceContacts(s, k, contact, u, fp);
    case _ => OtherContacts(s, step, u, fp);
  }

  lemma OtherContacts(s: Server, step: Step, u: nat, fp: Name)
    requires InRange(s) && !step.Recv? && !step.Introduce?
    ensures IsContact(Next(s, step), u, fp) <==> IsContact(s, u, fp)
  {
  }

  ghost predicate EntersAt(steps: seq<Step>, j: nat, u: nat, fp: Name) {
    j < |steps| && Enters(At(steps, j), steps[j], u, fp)
  }

  lemma EntersAtSnoc(steps: seq<Step>, j: nat, u: nat, fp: Name)
    requires steps != [] && j < |steps| - 1
    ensures EntersAt(steps, j, u, fp) <==> EntersAt(steps[..|steps| - 1], j, u, fp)
  {
    assert steps[..|steps| - 1][..j] == steps[..j];
  }

  /** Over every run: a fingerprint is in a user's contacts exactly when the user sent a frame to
      it while it was cached, or the two were introduced with room for it. */
  lemma {:induction false} ContactsAreMetOrIntroduced(steps: seq<Step>, u: nat, fp: Name)
    ensures IsContact(Run(steps), u, fp) <==> exists j: nat :: EntersAt(steps, j, u, fp)
  {
    if steps != [] {
      var n := |steps| - 1;
      ContactsAreMetOrIntroduced(steps[..n], u, fp);
      StepContacts(Run(steps[..n]), steps[n], u, fp);
      if j: nat :| EntersAt(steps[..n], j, u, fp) {
        EntersAtSnoc(steps, j, u, fp);
      } else {
        forall j: nat | EntersAt(steps, j, u, fp) ensures j == n {
          if j < n {
            EntersAtSnoc(steps, j, u, fp);
          }
        }
        assert EntersAt(steps, n, u, fp) <==> Enters(Run(steps[..n]), steps[n], u, fp);
      }
    }
  }

  // ---- registrations ----

  /** A registration makes a user object without mail, contacts or black list, for a real key
      that is not cached; it is under way until a set request for it is queued. */
  lemma RegistrationOutcome(s: Server, fp: Name, k: nat, life: int)
    requires InRange(s)
    ensures Next(s, TryRegister(fp)) ==
      if fp == Nobody || fp in s.cache.entries then s
      else s.(users := s.users + [User(fp, map[], {}, 100, [])], registering := s.registering + [|s.users|])
    ensures k < |s.registering| && |s.cache.chSet| < 100 ==>
      var u, r := s.registering[k], Next(s, QueueUser(k, life));
      && r == s.(registering := Cut(s.registering, k), cache := r.cache)
      && r.cache == s.cache.(chSet := s.cache.chSet + [Request(s.users[u].fp, u, life)])
  {
  }

  /** Introducing gives up a registration exactly when there is no room for it. */
  lemma IntroductionOutcome(s: Server, k: nat, contact: nat)
    requires InRange(s) && k < |s.registering| && contact < |s.users| && contact != s.registering[k]
    ensures
      var usr, r := s.registering[k], Next(s, Introduce(k, contact));
      && r.registering == (if HasRoom(s, contact) && HasRoom(s, usr) then s.registering else Cut(s.registering, k))
      && r == s.(users := r.users, registering := r.registering) && |r.users| == |s.users|
      && forall u | 0 <= u < |s.users| :: r.users[u] == s.users[u].(contacts := r.users[u].contacts)
  {
  }

  /** The fingerprints that were registered while they were not cached, in order. */
  function Registered(steps: seq<Step>): seq<Name> {
    if steps == [] then []
    else
      var n := |steps| - 1;
      var rest := Registered(steps[..n]);
      match steps[n]
      case TryRegister(fp) => if fp != Nobody && fp !in Run(steps[..n]).cache.entries then rest + [fp] else rest
      case _ => rest
  }

  function Names(users: seq<User>): (r: seq<Name>)
    ensures |r| == |users|
  {
    seq(|users|, u requires 0 <= u < |users| => users[u].fp)
  }

  lemma StepNames(s: Server, step: Step)
    requires InRange(s)
    ensures Names(Next(s, step).users) == Names(s.users) +
      if step.TryRegister? && step.fp != Nobody && step.fp !in s.cache.entries then [step.fp] else []
  {
    StepGrows(s, step);
    SameNumber(s, step);
  }

  lemma SameNumber(s: Server, step: Step)
    requires InRange(s)
    ensures
      var r := Next(s, step);
      if step.TryRegister? && step.fp != Nobody && step.fp !in s.cache.entries
      then r.users == s.users + [NewUser(step.fp)] else |r.users| == |s.users|
  {
  }

  /** There is one user object for each such registration, in order, with that fingerprint. */
  lemma {:induction false} UsersWereRegistered(steps: seq<Step>)
    ensures Names(Run(steps).users) == Registered(steps)
  {
    if steps != [] {
      UsersWereRegistered(steps[..|steps| - 1]);
      StepNames(Run(steps[..|steps| - 1]), steps[|steps| - 1]);
    }
  }

  // ---- the cache ----

  /** What a step is to the cache: a registration or a renewal asks for a set, with its user
      object and lifetime; the processing loop takes a request, or cleans up. */
  function CacheLabel(s: Server, step: Step): seq<StoreLabel<Name, nat>>
    requires InRange(s)
  {
    match step
    case QueueUser(k, life) =>
      if k < |s.registering| && |s.cache.chSet| < 100
      then [Ask(Request(s.users[s.registering[k]].fp, s.registering[k], life))] else []
    case RenewWrite(k, life) =>
      if k < |s.renewing| && |s.cache.chSet| < 100
      then [Ask(Request(s.renewing[k].0, s.renewing[k].1, life))] else []
    case CacheSet(now) => [Turn(TakeSet(now))]
    case CacheTimer(now) => [Timer(now)]
    case _ => []
  }

  function CacheLabels(steps: seq<Step>): seq<StoreLabel<Name, nat>> {
    if steps == [] then []
    else CacheLabels(steps[..|steps| - 1]) + CacheLabel(Run(steps[..|steps| - 1]), steps[|steps| - 1])
  }

  lemma StepCache(s: Server, step: Step, xs: seq<StoreLabel<Name, nat>>)
    requires InRange(s) && s.cache == StoreRun(xs)
    ensures Next(s, step).cache == StoreRun(xs + CacheLabel(s, step))
  {
    var ys := CacheLabel(s, step);
    if ys == [] {
      assert xs + ys == xs;
      OtherCache(s, step);
    } else {
      assert (xs + ys)[..|xs + ys| - 1] == xs;
      CacheStepIsStoreStep(s, step);
    }
  }

  lemma OtherCache(s: Server, step: Step)
    requires InRange(s) && CacheLabel(s, step) == []
    ensures Next(s, step).cache == s.cache
  {
  }

  lemma CacheStepIsStoreStep(s: Server, step: Step)
    requires InRange(s) && CacheLabel(s, step) != []
    ensures Next(s, step).cache == StoreStep(s.cache, CacheLabel(s, step)[0])
  {
  }

  /** In every run the server's cache is a store of the cache model, fed by registrations and
      renewals; so a fingerprint is found exactly while the last set of it is live, with the
      deadline that its lifetime gives, and all set requests are processed in order. */
  lemma {:induction false} CacheIsStore(steps: seq<Step>)
    ensures Run(steps).cache == StoreRun(CacheLabels(steps))
  {
    if steps != [] {
      var n := |steps| - 1;
      CacheIsStore(steps[..n]);
      StepCache(Run(steps[..n]), steps[n], CacheLabels(steps[..n]));
    }
  }

  lemma FoundWhileLive(steps: seq<Step>, fp: Name, u: nat)
    ensures
      var s, h := Run(steps), HistoryOf(CacheLabels(steps));
      && (GetUser(s, fp) == Some(u) <==> exists i :: LiveSince(h, fp, u, i))
      && (forall i :: LiveSince(h, fp, u, i) ==>
            fp in s.cache.entries && s.cache.entries[fp].expire == h[i].at + h[i].lifeTime)
      && SetsDone(h) + s.cache.chSet == SetsAsked(CacheLabels(steps))
  {
    CacheIsStore(steps);
    StoreIsReplay(CacheLabels(steps));
    StoreEqualsHistory(HistoryOf(CacheLabels(steps)), fp, u);
    RequestsInOrder(CacheLabels(steps));
  }

  /** Renewal reads what is cached for the user's own fingerprint, and writes just that back. */
  lemma RenewalOutcome(s: Server, user: nat, k: nat, life: int)
    requires InRange(s)
    ensures
      var known := user < |s.users| && s.users[user].fp in s.cache.entries;
      Next(s, RenewRead(user)) ==
        if known
        then s.(renewing := s.renewing + [(s.users[user].fp, s.cache.entries[s.users[user].fp].value)]) else s
    ensures k < |s.renewing| && |s.cache.chSet| < 100 ==>
      var r := Next(s, RenewWrite(k, life));
      r.renewing == Cut(s.renewing, k)
      && r.cache == s.cache.(chSet := s.cache.chSet + [Request(s.renewing[k].0, s.renewing[k].1, life)])
  {
  }
}
