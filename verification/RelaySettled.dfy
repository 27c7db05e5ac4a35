/**
  Which states keep the order to a receiver for good. Sending to a fingerprint may involve
  several user objects, when it expired and was registered again. As long as it is not
  registered yet again, every sender's order is kept in every continuation exactly when the
  state is settled: one object is all that anything refers to, the others have no frame left
  to write, and what was written and what waits in that one are in order.
*/
module RelaySettled {
  import opened Basics
  import opened CacheSpec
  import opened Frames
  import opened Relay
  import opened RelayLaws
  import opened RelayOrder
  import opened RelayTrace

  // ---- settled states ----

  /** The cache, pending set requests, registrations and renewals under way refer to no other
      object of the fingerprint than `u`. */
  ghost predicate RefersOnlyTo(s: Server, fp: Name, u: nat) {
    && (fp in s.cache.entries ==> s.cache.entries[fp].value == u)
    && (forall i | 0 <= i < |s.cache.chSet| && s.cache.chSet[i].key == fp :: s.cache.chSet[i].value == u)
    && (forall i | 0 <= i < |s.registering| && IsObject(s, s.registering[i], fp) :: s.registering[i] == u)
    && (forall i | 0 <= i < |s.renewing| && s.renewing[i].0 == fp :: s.renewing[i].1 == u)
  }

  predicate IsObject(s: Server, w: nat, fp: Name) {
    w < |s.users| && s.users[w].fp == fp
  }

  /** In no other object's mailbox that a send loop empties does a client's frame wait. */
  ghost predicate OthersSilent(s: Server, fp: Name, u: nat) {
    forall i | 0 <= i < |s.sessions| && s.sessions[i].user != u && IsObject(s, s.sessions[i].user, fp) ::
      NoFrames(Mail(s, s.sessions[i].user))
  }

  ghost predicate NoFrames(ms: seq<SessionMessage>) {
    forall k | 0 <= k < |ms| :: ms[k].sender.None?
  }

  /** What was written to the receiver, and then what waits for it in `u`. */
  ghost function WrittenAndWaiting(s: Server, sender: Name, fp: Name, u: nat): seq<Frame> {
    WrittenTo(s, sender, fp) + FromSender(Mail(s, u), sender)
  }

  ghost predicate WaitsInOrder(s: Server, sender: Name, fp: Name, u: nat) {
    Subsequence(WrittenAndWaiting(s, sender, fp, u), AcceptedFrom(s.log.accepted, sender, fp))
  }

  ghost predicate AllWaitInOrder(s: Server, fp: Name, u: nat) {
    forall sender | sender != Nobody :: WaitsInOrder(s, sender, fp, u)
  }

  ghost predicate SettledOn(s: Server, fp: Name, u: nat) {
    IsObject(s, u, fp) && RefersOnlyTo(s, fp, u) && OthersSilent(s, fp, u) && AllWaitInOrder(s, fp, u)
  }

  /** For a cached fingerprint: settled on the object the cache names. */
  ghost predicate Settled(s: Server, fp: Name)
    requires fp in s.cache.entries
  {
    SettledOn(s, fp, s.cache.entries[fp].value)
  }

  // ---- what holds in every reachable state ----

  ghost predicate NoBlackLists(s: Server) {
    forall u | 0 <= u < |s.users| :: s.users[u].blackList == {}
  }

  ghost predicate Sane(s: Server) {
    KeyIntegrity(s) && AllAuthentic(s) && NoBlackLists(s)
  }

  lemma QuietKeepsBlackLists(s: Server, step: Step)
    requires InRange(s) && NoBlackLists(s) && Quiet(step)
    ensures NoBlackLists(Next(s, step))
  {
  }

  lemma DispatchKeepsBlackLists(s: Server, i: nat, f: Frame)
    requires InRange(s) && NoBlackLists(s) && i < |s.sessions|
    ensures NoBlackLists(Dispatch(s, i, f))
  {
    var user := s.sessions[i].user;
    match GetUser(s, f.receiver)
    case None =>
    case Some(to) =>
      var posted := PostTo(NoteContact(Accept(s, i, f), user, f.receiver), to, SessionMessage(Some(user), to, f));
      assert NoBlackLists(posted);
  }

  lemma StepKeepsBlackLists(s: Server, step: Step)
    requires InRange(s) && NoBlackLists(s)
    ensures NoBlackLists(Next(s, step))
  {
    if Quiet(step) {
      QuietKeepsBlackLists(s, step);
    } else if step.Recv? && step.session < |s.sessions| && step.input.Parsed? {
      DispatchKeepsBlackLists(s, step.session, step.input.frame);
    }
  }

  lemma SaneStep(s: Server, step: Step)
    requires Sane(s)
    ensures Sane(Next(s, step))
  {
    StepKeepsKeys(s, step);
    StepKeepsAuthentic(s, step);
    StepKeepsBlackLists(s, step);
  }

  lemma {:induction false} AlwaysSane(steps: seq<Step>)
    ensures Sane(Run(steps))
  {
    if steps != [] {
      AlwaysSane(steps[..|steps| - 1]);
      SaneStep(Run(steps[..|steps| - 1]), steps[|steps| - 1]);
    }
  }

  // ---- written frames depend on the names of the objects only ----

  lemma {:induction false} WrittenByNames(takes: seq<Take>, us: seq<User>, vs: seq<User>, sender: Name, fp: Name)
    requires |us| <= |vs| && forall u | 0 <= u < |us| :: vs[u].fp == us[u].fp
    requires forall i | 0 <= i < |takes| :: takes[i].from < |us|
    ensures WrittenBelow(takes, vs, |vs|, sender, fp) == WrittenBelow(takes, us, |us|, sender, fp)
  {
    if takes != [] {
      WrittenByNames(takes[..|takes| - 1], us, vs, sender, fp);
    }
  }

  lemma WrittenStays(s: Server, r: Server, sender: Name, fp: Name)
    requires TakesAuthentic(s) && Grows(s, r) && r.log.takes == s.log.takes
    ensures WrittenTo(r, sender, fp) == WrittenTo(s, sender, fp)
  {
    forall i | 0 <= i < |s.log.takes| ensures s.log.takes[i].from < |s.users| {
      assert Authentic(s, s.log.takes[i].from, s.log.takes[i].msg);
    }
    WrittenByNames(s.log.takes, s.users, r.users, sender, fp);
  }

  // ---- references stay ----

  lemma SameReferences(s: Server, r: Server, fp: Name, u: nat)
    requires RefersOnlyTo(s, fp, u) && Grows(s, r) && |r.users| == |s.users|
    requires r.cache == s.cache && r.renewing == s.renewing && r.registering == s.registering
    ensures RefersOnlyTo(r, fp, u)
  {
  }

  lemma ReceiveKeepsReferences(s: Server, i: nat, input: Input, fp: Name, u: nat)
    requires InRange(s) && RefersOnlyTo(s, fp, u) && i < |s.sessions|
    ensures RefersOnlyTo(Receive(s, i, input), fp, u)
  {
    ReceiveFrame(s, i, input);
    SameReferences(s, Receive(s, i, input), fp, u);
  }

  lemma SendKeepsReferences(s: Server, i: nat, fp: Name, u: nat)
    requires InRange(s) && RefersOnlyTo(s, fp, u) && i < |s.sessions|
    ensures RefersOnlyTo(Send(s, i), fp, u)
  {
    SameReferences(s, Send(s, i), fp, u);
  }

  lemma QueueingKeepsReferences(s: Server, k: nat, lifeTime: int, fp: Name, u: nat)
    requires KeyIntegrity(s) && RefersOnlyTo(s, fp, u)
    ensures RefersOnlyTo(QueueUserStep(s, k, lifeTime), fp, u)
  {
  }

  lemma IntroductionKeepsReferences(s: Server, k: nat, contact: nat, fp: Name, u: nat)
    requires InRange(s) && RefersOnlyTo(s, fp, u)
    ensures RefersOnlyTo(IntroduceStep(s, k, contact), fp, u)
  {
  }

  lemma NewUserKeepsReferences(s: Server, name: Name, fp: Name, u: nat)
    requires InRange(s) && RefersOnlyTo(s, fp, u) && name != fp
    ensures RefersOnlyTo(TryRegisterStep(s, name), fp, u)
  {
  }

  lemma RegistrationKeepsReferences(s: Server, step: Step, fp: Name, u: nat)
    requires KeyIntegrity(s) && RefersOnlyTo(s, fp, u) && Registers(step) && step != TryRegister(fp)
    ensures RefersOnlyTo(Next(s, step), fp, u)
  {
    match step
    case TryRegister(name) => NewUserKeepsReferences(s, name, fp, u);
    case QueueUser(k, life) => QueueingKeepsReferences(s, k, life, fp, u);
    case Introduce(k, contact) => IntroductionKeepsReferences(s, k, contact, fp, u);
  }

  lemma CachingKeepsReferences(s: Server, step: Step, fp: Name, u: nat)
    requires KeyIntegrity(s) && RefersOnlyTo(s, fp, u) && IsObject(s, u, fp) && Caches(step)
    ensures RefersOnlyTo(Next(s, step), fp, u)
  {
  }

  lemma SessionsKeepReferences(s: Server, step: Step, fp: Name, u: nat)
    requires InRange(s) && RefersOnlyTo(s, fp, u) && (step.Handshake? || step.Join?)
    ensures RefersOnlyTo(Next(s, step), fp, u)
  {
  }

  lemma QuietKeepsReferences(s: Server, step: Step, fp: Name, u: nat)
    requires KeyIntegrity(s) && RefersOnlyTo(s, fp, u) && IsObject(s, u, fp) && Quiet(step) && step != TryRegister(fp)
    ensures RefersOnlyTo(Next(s, step), fp, u)
  {
    if Registers(step) {
      RegistrationKeepsReferences(s, step, fp, u);
    } else if Caches(step) {
      CachingKeepsReferences(s, step, fp, u);
    } else {
      SessionsKeepReferences(s, step, fp, u);
    }
  }

  // ---- the others stay silent ----

  /** Sessions are only added for `u`, for objects of other names, or beside an earlier one. */
  ghost predicate NoNewOwners(s: Server, r: Server, fp: Name, u: nat) {
    forall i | 0 <= i < |r.sessions| && r.sessions[i].user != u && IsObject(r, r.sessions[i].user, fp) ::
      HasSession(s, r.sessions[i].user)
  }

  ghost predicate HasSession(s: Server, w: nat) {
    exists i :: 0 <= i < |s.sessions| && s.sessions[i].user == w
  }

  /** No client's frame is added to the mailboxes of the other objects. */
  ghost predicate NothingForOthers(s: Server, r: Server, fp: Name, u: nat) {
    forall w: nat | w != u && IsObject(r, w, fp) && NoFrames(Mail(s, w)) :: NoFrames(Mail(r, w))
  }

  lemma SilenceStays(s: Server, r: Server, fp: Name, u: nat)
    requires InRange(s) && OthersSilent(s, fp, u) && Grows(s, r)
    requires NoNewOwners(s, r, fp, u) && NothingForOthers(s, r, fp, u)
    ensures OthersSilent(r, fp, u)
  {
    forall i | 0 <= i < |r.sessions| && r.sessions[i].user != u && IsObject(r, r.sessions[i].user, fp)
      ensures NoFrames(Mail(r, r.sessions[i].user))
    {
      var w := r.sessions[i].user;
      assert HasSession(s, w);
      var j :| 0 <= j < |s.sessions| && s.sessions[j].user == w;
      assert IsObject(s, w, fp);
    }
  }

  lemma SameSessionsNoNewOwners(s: Server, r: Server, fp: Name, u: nat)
    requires r.sessions == s.sessions
    ensures NoNewOwners(s, r, fp, u)
  {
  }

  lemma HandshakeNoNewOwners(s: Server, claimed: Name, signer: Name, conn: nat, fp: Name, u: nat)
    requires KeyIntegrity(s) && RefersOnlyTo(s, fp, u)
    ensures NoNewOwners(s, HandshakeStep(s, claimed, signer, conn), fp, u)
  {
  }

  lemma JoinNoNewOwners(s: Server, earlier: nat, origin: nat, fp: Name, u: nat)
    requires InRange(s)
    ensures NoNewOwners(s, JoinStep(s, earlier, origin), fp, u)
  {
  }

  lemma QuietKeepsSilence(s: Server, step: Step, fp: Name, u: nat)
    requires KeyIntegrity(s) && RefersOnlyTo(s, fp, u) && OthersSilent(s, fp, u) && Quiet(step)
    ensures OthersSilent(Next(s, step), fp, u)
  {
    var r := Next(s, step);
    QuietFrame(s, step);
    if step.Handshake? {
      HandshakeNoNewOwners(s, step.claimed, step.signer, step.conn, fp, u);
    } else if step.Join? {
      JoinNoNewOwners(s, step.earlier, step.origin, fp, u);
    } else {
      OtherStepsAddNoSession(s, step);
      SameSessionsNoNewOwners(s, r, fp, u);
    }
    SilenceStays(s, r, fp, u);
  }

  lemma OtherStepsAddNoSession(s: Server, step: Step)
    requires InRange(s) && Quiet(step) && !step.Handshake? && !step.Join?
    ensures Next(s, step).sessions == s.sessions
  {
  }

  // ---- what a received frame does ----

  /** One frame has been received at session `i`: nothing for the receiver, or a frame accepted
      for it, stored with `u` or nowhere. */
  ghost predicate ReceivedFor(s: Server, r: Server, fp: Name, u: nat) {
    && Grows(s, r) && r.log.takes == s.log.takes && r.sessions == s.sessions
    && NothingForOthers(s, r, fp, u)
    && (AcceptedNothing(s, r, u) || exists a :: AcceptedOne(s, r, u, fp, a))
  }

  /** At most a report of the server was posted. */
  ghost predicate AcceptedNothing(s: Server, r: Server, u: nat) {
    r.log.accepted == s.log.accepted && Reported(Mail(s, u), Mail(r, u))
  }

  ghost predicate Reported(ms: seq<SessionMessage>, ns: seq<SessionMessage>) {
    ns == ms || exists m: SessionMessage :: m.sender.None? && m.msg.sender == Nobody && ns == ms + [m]
  }

  ghost predicate AcceptedOne(s: Server, r: Server, u: nat, fp: Name, a: Accepted) {
    && r.log.accepted == s.log.accepted + [a]
    && (Reported(Mail(s, u), Mail(r, u))
        || exists m: SessionMessage :: m.msg == a.frame && a.frame.receiver == fp && Mail(r, u) == Mail(s, u) + [m])
  }

  lemma ErrorReceived(s: Server, user: nat, m: SessionMessage, fp: Name, u: nat)
    requires InRange(s) && user < |s.users| && m.sender.None? && m.msg.sender == Nobody
    ensures ReceivedFor(s, PostTo(s, user, m), fp, u)
  {
    var r := PostTo(s, user, m);
    forall w: nat ensures Reported(Mail(s, w), Mail(r, w)) {
      assert Mail(r, w) == Mail(s, w) || Mail(r, w) == Mail(s, w) + [m];
    }
    assert AcceptedNothing(s, r, u);
  }

  /** What one dispatched frame does to the mailbox of `w`: nothing, a report, or the frame,
      when the cache names `w`. */
  lemma DispatchedTo(s: Server, i: nat, f: Frame, w: nat)
    requires InRange(s) && i < |s.sessions|
    ensures
      var r := Dispatch(s, i, f);
      || Reported(Mail(s, w), Mail(r, w))
      || (GetUser(s, f.receiver) == Some(w) && Mail(r, w)
          == Mail(s, w) + [SessionMessage(Some(s.sessions[i].user), w, f)])
  {
    var user, r := s.sessions[i].user, Dispatch(s, i, f);
    var code := if GetUser(s, f.receiver).None? then ReceiverUnknown else MessageNotDelivered;
    DispatchEffect(s, i, f);
    var report := ErrorMessage(user, s.users[user].fp, code, f.id);
    assert Mail(s, w) + [] == Mail(s, w);
    assert Mail(r, w) == Mail(s, w) + [report] ==> Reported(Mail(s, w), Mail(r, w));
  }

  lemma FrameReceived(s: Server, i: nat, f: Frame, fp: Name, u: nat)
    requires KeyIntegrity(s) && i < |s.sessions| && RefersOnlyTo(s, fp, u) && IsObject(s, u, fp)
    ensures ReceivedFor(s, Dispatch(s, i, f), fp, u)
  {
    var r := Dispatch(s, i, f);
    DispatchFrame(s, i, f);
    DispatchLog(s, i, f);
    forall w: nat | w != u && IsObject(r, w, fp) && NoFrames(Mail(s, w)) ensures NoFrames(Mail(r, w)) {
      DispatchedTo(s, i, f, w);
    }
    DispatchedTo(s, i, f, u);
    assert AcceptedOne(s, r, u, fp, Accepted(i, s.sessions[i].user, f, OutcomeOf(s, f.receiver)));
  }

  lemma DispatchLog(s: Server, i: nat, f: Frame)
    requires InRange(s) && i < |s.sessions|
    ensures
      var r := Dispatch(s, i, f);
      && r.log.takes == s.log.takes
      && r.log.accepted == s.log.accepted + [Accepted(i, s.sessions[i].user, f, OutcomeOf(s, f.receiver))]
  {
  }

  lemma Received(s: Server, i: nat, input: Input, fp: Name, u: nat)
    requires KeyIntegrity(s) && i < |s.sessions| && RefersOnlyTo(s, fp, u) && IsObject(s, u, fp)
    ensures ReceivedFor(s, Receive(s, i, input), fp, u)
  {
    var user := s.sessions[i].user;
    match input
    case Malformed(id) => ErrorReceived(s, user, ErrorMessage(user, s.users[user].fp, InvalidMessage, id), fp, u);
    case Parsed(f) =>
      if f.sender != s.users[user].fp {
        ErrorReceived(s, user, ErrorMessage(user, s.users[user].fp, VerifyError, f.id), fp, u);
      } else {
        FrameReceived(s, i, f, fp, u);
      }
  }

  lemma ReportedSenders(ms: seq<SessionMessage>, ns: seq<SessionMessage>, sender: Name)
    requires Reported(ms, ns) && sender != Nobody
    ensures FromSender(ns, sender) == FromSender(ms, sender)
  {
    if ns != ms {
      var m: SessionMessage :| m.msg.sender == Nobody && ns == ms + [m];
      FromSenderSnoc(ms, m, sender);
    }
  }

  lemma ReceivedKeepsOrder(s: Server, r: Server, sender: Name, fp: Name, u: nat)
    requires TakesAuthentic(s) && ReceivedFor(s, r, fp, u) && WaitsInOrder(s, sender, fp, u) && sender != Nobody
    ensures WaitsInOrder(r, sender, fp, u)
  {
    WrittenStays(s, r, sender, fp);
    if AcceptedNothing(s, r, u) {
      ReportedSenders(Mail(s, u), Mail(r, u), sender);
    } else {
      var a :| AcceptedOne(s, r, u, fp, a);
      AcceptedKeepsOrder(s, r, a, sender, fp, u);
    }
  }

  lemma AcceptedKeepsOrder(s: Server, r: Server, a: Accepted, sender: Name, fp: Name, u: nat)
    requires AcceptedOne(s, r, u, fp, a) && WaitsInOrder(s, sender, fp, u) && sender != Nobody
    requires WrittenTo(r, sender, fp) == WrittenTo(s, sender, fp)
    ensures WaitsInOrder(r, sender, fp, u)
  {
    var named := a.frame.sender == sender && a.frame.receiver == fp;
    AcceptedFromSnoc(s.log.accepted, a, sender, fp);
    if Reported(Mail(s, u), Mail(r, u)) {
      ReportedSenders(Mail(s, u), Mail(r, u), sender);
      OneMoreAccepted(WrittenTo(s, sender, fp), FromSender(Mail(s, u), sender),
                      AcceptedFrom(s.log.accepted, sender, fp), a.frame, false, named);
    } else {
      var m: SessionMessage :| m.msg == a.frame && a.frame.receiver == fp && Mail(r, u) == Mail(s, u) + [m];
      FromSenderSnoc(Mail(s, u), m, sender);
      OneMoreAccepted(WrittenTo(s, sender, fp), FromSender(Mail(s, u), sender),
                      AcceptedFrom(s.log.accepted, sender, fp), a.frame, named, named);
    }
  }

  lemma OneMoreAccepted<T>(w: seq<T>, waiting: seq<T>, accepted: seq<T>, x: T, stored: bool, named: bool)
    requires Subsequence(w + waiting, accepted) && (stored ==> named)
    ensures Subsequence(w + (waiting + if stored then [x] else []), accepted + if named then [x] else [])
    ensures !stored ==> Subsequence(w + waiting, accepted + if named then [x] else [])
  {
    var more := if stored then [x] else [];
    SubsequenceMaybe(w + waiting, accepted, x, stored, named);
    assert w + (waiting + more) == w + waiting + more;
    assert !stored ==> waiting + more == waiting;
  }

  // ---- what a send does ----

  /** One message has been taken out of the mailbox of `user`, and written or not. */
  ghost predicate SentFrom(s: Server, r: Server, user: nat, written: bool) {
    && Mail(s, user) != [] && user < |s.users|
    && Grows(s, r) && |r.users| == |s.users| && r.log.accepted == s.log.accepted && r.sessions == s.sessions
    && r.log.takes == s.log.takes + [Take(user, Mail(s, user)[0], written)]
    && forall w: nat :: Mail(r, w) == if w == user then Mail(s, w)[1..] else Mail(s, w)
  }

  lemma Sending(s: Server, i: nat)
    requires InRange(s) && i < |s.sessions| && Mail(s, s.sessions[i].user) != []
    ensures
      var user := s.sessions[i].user;
      SentFrom(s, Send(s, i), user, CheckContact(s, user, Mail(s, user)[0].msg.sender))
  {
  }

  lemma WrittenSnoc(takes: seq<Take>, x: Take, users: seq<User>, sender: Name, fp: Name)
    ensures WrittenBelow(takes + [x], users, |users|, sender, fp) ==
      WrittenBelow(takes, users, |users|, sender, fp) +
      if x.from < |users| && users[x.from].fp == fp && x.written && x.msg.msg.sender == sender then [x.msg.msg] else []
  {
    assert (takes + [x])[..|takes|] == takes;
  }

  lemma SentWrites(s: Server, r: Server, user: nat, written: bool, sender: Name, fp: Name)
    requires TakesAuthentic(s) && SentFrom(s, r, user, written)
    ensures WrittenTo(r, sender, fp) == WrittenTo(s, sender, fp) +
      if s.users[user].fp == fp && written && Mail(s, user)[0].msg.sender == sender then [Mail(s, user)[0].msg] else []
  {
    WrittenSnoc(s.log.takes, Take(user, Mail(s, user)[0], written), r.users, sender, fp);
    forall i | 0 <= i < |s.log.takes| ensures s.log.takes[i].from < |s.users| {
      assert Authentic(s, s.log.takes[i].from, s.log.takes[i].msg);
    }
    WrittenByNames(s.log.takes, s.users, r.users, sender, fp);
  }

  lemma FromSenderCons(m: SessionMessage, ms: seq<SessionMessage>, sender: Name)
    ensures FromSender([m] + ms, sender) == (if m.msg.sender == sender then [m.msg] else []) + FromSender(ms, sender)
  {
    FromSenderConcat([m], ms, sender);
    assert [m] == [] + [m];
    FromSenderSnoc([], m, sender);
  }

  /** What is dropped on the way leaves the rest in order. */
  lemma {:induction false} SubsequenceDrop<T>(a: seq<T>, x: T, b: seq<T>)
    ensures Subsequence(a + b, a + [x] + b)
    decreases |b|
  {
    if b == [] {
      assert a + b == a && a + [x] + b == a + [x];
      SubsequencePrefix(a, [x]);
    } else {
      var b', y := b[..|b| - 1], b[|b| - 1];
      SubsequenceDrop(a, x, b');
      SubsequenceBoth(a + b', a + [x] + b', y);
      assert a + b == (a + b') + [y] && a + [x] + b == (a + [x] + b') + [y];
    }
  }

  lemma SentKeepsOrder(s: Server, r: Server, user: nat, written: bool, sender: Name, fp: Name, u: nat)
    requires TakesAuthentic(s) && SentFrom(s, r, user, written) && WaitsInOrder(s, sender, fp, u)
    requires user == u || s.users[user].fp != fp || !written
    requires user == u ==> s.users[u].fp == fp
    ensures WaitsInOrder(r, sender, fp, u)
  {
    SentWrites(s, r, user, written, sender, fp);
    if user == u {
      var head, rest := Mail(s, u)[0], Mail(r, u);
      assert Mail(s, u) == [head] + rest;
      FromSenderCons(head, rest, sender);
      HeadWrittenOrDropped(WrittenTo(s, sender, fp), WrittenTo(r, sender, fp), head.msg, FromSender(rest, sender),
                           head.msg.sender == sender, written, AcceptedFrom(s.log.accepted, sender, fp));
    } else {
      assert WrittenTo(r, sender, fp) == WrittenTo(s, sender, fp) && Mail(r, u) == Mail(s, u);
    }
  }

  lemma HeadWrittenOrDropped<T>(w: seq<T>, w': seq<T>, x: T, rest: seq<T>, its: bool, written: bool, accepted: seq<T>)
    requires Subsequence(w + ((if its then [x] else []) + rest), accepted)
    requires w' == w + if written && its then [x] else []
    ensures Subsequence(w' + rest, accepted)
  {
    if its && written {
      assert w + ([x] + rest) == w' + rest;
    } else if its {
      assert w + ([x] + rest) == w + [x] + rest && w' == w;
      SubsequenceDrop(w, x, rest);
      SubsequenceTransitive(w + rest, w + [x] + rest, accepted);
    } else {
      assert w + ([] + rest) == w' + rest;
    }
  }

  // ---- settled states keep the order for good ----

  lemma QuietKeepsSettled(s: Server, step: Step, fp: Name, u: nat)
    requires Sane(s) && SettledOn(s, fp, u) && Quiet(step) && step != TryRegister(fp)
    ensures SettledOn(Next(s, step), fp, u)
  {
    var r := Next(s, step);
    QuietFrame(s, step);
    QuietKeepsReferences(s, step, fp, u);
    QuietKeepsSilence(s, step, fp, u);
    forall sender | sender != Nobody ensures WaitsInOrder(r, sender, fp, u) {
      assert WaitsInOrder(s, sender, fp, u);
      WrittenStays(s, r, sender, fp);
    }
  }

  lemma ReceiveKeepsSettled(s: Server, i: nat, input: Input, fp: Name, u: nat)
    requires Sane(s) && SettledOn(s, fp, u) && i < |s.sessions|
    ensures SettledOn(Receive(s, i, input), fp, u)
  {
    var r := Receive(s, i, input);
    Received(s, i, input, fp, u);
    ReceiveKeepsReferences(s, i, input, fp, u);
    SameSessionsNoNewOwners(s, r, fp, u);
    SilenceStays(s, r, fp, u);
    forall sender | sender != Nobody ensures WaitsInOrder(r, sender, fp, u) {
      assert WaitsInOrder(s, sender, fp, u);
      ReceivedKeepsOrder(s, r, sender, fp, u);
    }
  }

  lemma NobodyIsNeverWritten(s: Server, user: nat, m: SessionMessage)
    requires KeyIntegrity(s) && user < |s.users| && m.msg.sender == Nobody
    ensures !CheckContact(s, user, m.msg.sender)
  {
  }

  lemma SendKeepsSettled(s: Server, i: nat, fp: Name, u: nat)
    requires Sane(s) && SettledOn(s, fp, u) && i < |s.sessions|
    ensures SettledOn(Send(s, i), fp, u)
  {
    var r, user := Send(s, i), s.sessions[i].user;
    if Mail(s, user) != [] {
      var head := Mail(s, user)[0];
      var written := CheckContact(s, user, head.msg.sender);
      Sending(s, i);
      SendKeepsReferences(s, i, fp, u);
      SameSessionsNoNewOwners(s, r, fp, u);
      SilenceStays(s, r, fp, u);
      if user != u && s.users[user].fp == fp {
        assert NoFrames(Mail(s, user)) && Authentic(s, user, head);
        NobodyIsNeverWritten(s, user, head);
      }
      forall sender | sender != Nobody ensures WaitsInOrder(r, sender, fp, u) {
        assert WaitsInOrder(s, sender, fp, u);
        SentKeepsOrder(s, r, user, written, sender, fp, u);
      }
    }
  }

  lemma StepKeepsSettled(s: Server, step: Step, fp: Name, u: nat)
    requires Sane(s) && SettledOn(s, fp, u) && step != TryRegister(fp)
    ensures SettledOn(Next(s, step), fp, u)
  {
    if Quiet(step) {
      QuietKeepsSettled(s, step, fp, u);
    } else if step.Recv? {
      if step.session < |s.sessions| {
        ReceiveKeepsSettled(s, step.session, step.input, fp, u);
      }
    } else if step.session < |s.sessions| {
      SendKeepsSettled(s, step.session, fp, u);
    }
  }

  lemma {:induction false} SettledForGood(steps: seq<Step>, more: seq<Step>, fp: Name, u: nat)
    requires SettledOn(Run(steps), fp, u) && TryRegister(fp) !in more
    ensures SettledOn(Run(steps + more), fp, u)
    decreases |more|
  {
    if more == [] {
      assert steps + more == steps;
    } else {
      var n := |more| - 1;
      SettledForGood(steps, more[..n], fp, u);
      AlwaysSane(steps + more[..n]);
      StepKeepsSettled(Run(steps + more[..n]), more[n], fp, u);
      Extend(steps, more, |more|);
      assert more[..|more|] == more;
      RunOn(steps + more[..n], steps + more, more[n], Run(steps + more[..n]), Next(Run(steps + more[..n]), more[n]));
    }
  }

  lemma SettledIsInOrder(s: Server, fp: Name, u: nat, sender: Name)
    requires SettledOn(s, fp, u) && sender != Nobody
    ensures OrderKept(s, sender, fp)
  {
    assert WaitsInOrder(s, sender, fp, u);
    var w, rest := WrittenTo(s, sender, fp), FromSender(Mail(s, u), sender);
    SubsequencePrefix(w, rest);
    SubsequenceTransitive(w, w + rest, AcceptedFrom(s.log.accepted, sender, fp));
  }

  /** From a settled state every continuation keeps the order, as long as the fingerprint is
      not registered again; whatever the clock does. */
  lemma SettledKeepsOrder(steps: seq<Step>, more: seq<Step>, fp: Name, u: nat, sender: Name)
    requires SettledOn(Run(steps), fp, u) && TryRegister(fp) !in more && sender != Nobody
    ensures OrderKept(Run(steps + more), sender, fp)
  {
    SettledForGood(steps, more, fp, u);
    SettledIsInOrder(Run(steps + more), fp, u, sender);
  }
}
