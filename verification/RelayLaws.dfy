/**
  Laws of the relay over every run, with arbitrary clients: keys and user objects stay
  together, queued and written frames are authentic, mailboxes are bounded FIFO queues,
  outcomes are accounted for, and frames are relayed in order and at most once.
*/
module RelayLaws {
  import opened Basics
  import opened CacheSpec
  import opened Frames
  import opened Relay

  // ---- views of the history ----

  /** The content of a mailbox; user objects not created yet have an empty one. */
  function Mail(s: Server, u: nat): seq<SessionMessage> {
    if u < |s.users| then s.users[u].mailbox else []
  }

  /** What was stored in a mailbox, oldest first. */
  function Stored(posts: seq<Post>, u: nat): seq<SessionMessage> {
    if posts == [] then []
    else
      var rest, p := Stored(posts[..|posts| - 1], u), posts[|posts| - 1];
      if p.to == u && p.stored then rest + [p.msg] else rest
  }

  /** What was taken out of a mailbox, oldest first. */
  function Taken(takes: seq<Take>, u: nat): seq<SessionMessage> {
    if takes == [] then []
    else
      var rest, t := Taken(takes[..|takes| - 1], u), takes[|takes| - 1];
      if t.from == u then rest + [t.msg] else rest
  }

  /** The frames of a sender in a list of messages. */
  function FromSender(ms: seq<SessionMessage>, sender: Name): seq<Frame> {
    if ms == [] then []
    else
      var rest, m := FromSender(ms[..|ms| - 1], sender), ms[|ms| - 1];
      if m.msg.sender == sender then rest + [m.msg] else rest
  }

  /** The frames accepted from one sender for one receiver, oldest first. */
  function AcceptedFrom(accepted: seq<Accepted>, sender: Name, receiver: Name): seq<Frame> {
    if accepted == [] then []
    else
      var rest, a := AcceptedFrom(accepted[..|accepted| - 1], sender, receiver), accepted[|accepted| - 1];
      if a.frame.sender == sender && a.frame.receiver == receiver then rest + [a.frame] else rest
  }

  /** The frames from one sender that were written out of one mailbox, oldest first. */
  function WrittenFrom(takes: seq<Take>, sender: Name, u: nat): seq<Frame> {
    if takes == [] then []
    else
      var rest, t := WrittenFrom(takes[..|takes| - 1], sender, u), takes[|takes| - 1];
      if t.from == u && t.written && t.msg.msg.sender == sender then rest + [t.msg.msg] else rest
  }

  // ---- names never move ----

  /** User objects keep their fingerprints, and sessions are only added. */
  ghost predicate Grows(s: Server, r: Server) {
    && |s.users| <= |r.users|
    && (forall u | 0 <= u < |s.users| :: r.users[u].fp == s.users[u].fp)
    && s.sessions <= r.sessions
  }

  /** Cache, pending set requests and renewals under way pair a key only with a user object
      of that fingerprint; no user is nameless; sessions are bound to their signer. */
  ghost predicate KeyIntegrity(s: Server) {
    && InRange(s)
    && (forall k | k in s.cache.entries :: s.users[s.cache.entries[k].value].fp == k)
    && (forall i | 0 <= i < |s.cache.chSet| :: s.users[s.cache.chSet[i].value].fp == s.cache.chSet[i].key)
    && (forall i | 0 <= i < |s.renewing| :: s.users[s.renewing[i].1].fp == s.renewing[i].0)
    && (forall u | 0 <= u < |s.users| :: s.users[u].fp != Nobody)
    && (forall i | 0 <= i < |s.sessions| :: s.users[s.sessions[i].user].fp == s.sessions[i].signer)
  }

  /** Steps other than the two loops leave mailboxes and history alone. */
  predicate Quiet(step: Step) {
    !step.Recv? && !step.SendOne?
  }

  predicate Registers(step: Step) {
    step.TryRegister? || step.QueueUser? || step.Introduce?
  }

  predicate Caches(step: Step) {
    step.CacheSet? || step.CacheTimer? || step.RenewRead? || step.RenewWrite?
  }

  /** Mailboxes and history are as before. */
  ghost predicate Undisturbed(s: Server, r: Server) {
    Grows(s, r) && r.log == s.log && forall u: nat :: Mail(r, u) == Mail(s, u)
  }

  lemma RegistrationFrame(s: Server, step: Step)
    requires InRange(s) && Registers(step)
    ensures Undisturbed(s, Next(s, step))
  {
  }

  lemma CacheFrame(s: Server, step: Step)
    requires InRange(s) && Caches(step)
    ensures Undisturbed(s, Next(s, step))
  {
  }

  lemma SessionFrame(s: Server, step: Step)
    requires InRange(s) && (step.Handshake? || step.Join?)
    ensures Undisturbed(s, Next(s, step))
  {
  }

  lemma QuietFrame(s: Server, step: Step)
    requires InRange(s) && Quiet(step)
    ensures Undisturbed(s, Next(s, step))
  {
    if Registers(step) {
      RegistrationFrame(s, step);
    } else if Caches(step) {
      CacheFrame(s, step);
    } else {
      SessionFrame(s, step);
    }
  }

  lemma ReceiveFrame(s: Server, i: nat, input: Input)
    requires InRange(s) && i < |s.sessions|
    ensures
      var r := Receive(s, i, input);
      && Grows(s, r) && |r.users| == |s.users|
      && r.cache == s.cache && r.renewing == s.renewing && r.registering == s.registering && r.sessions == s.sessions
  {
    match input
    case Malformed(id) =>
    case Parsed(frame) =>
      if frame.sender == s.users[s.sessions[i].user].fp {
        DispatchFrame(s, i, frame);
      }
  }

  lemma DispatchFrame(s: Server, i: nat, frame: Frame)
    requires InRange(s) && i < |s.sessions|
    ensures
      var r := Dispatch(s, i, frame);
      && Grows(s, r) && |r.users| == |s.users|
      && r.cache == s.cache && r.renewing == s.renewing && r.registering == s.registering && r.sessions == s.sessions
  {
    var user := s.sessions[i].user;
    match GetUser(s, frame.receiver)
    case None =>
    case Some(to) =>
      var noted := NoteContact(Accept(s, i, frame), user, frame.receiver);
      assert Grows(s, noted);
      var posted := PostTo(noted, to, SessionMessage(Some(user), to, frame));
      assert Grows(noted, posted);
      var failed := PostError(posted, user, MessageNotDelivered, frame.id);
      assert Grows(posted, failed);
  }

  lemma StepGrows(s: Server, step: Step)
    requires InRange(s)
    ensures Grows(s, Next(s, step))
  {
    match step
    case Recv(i, input) =>
      if i < |s.sessions| {
        ReceiveFrame(s, i, input);
      }
    case SendOne(i) =>
    case _ => QuietFrame(s, step);
  }

  /** Renewal may write back a stale read; the pairing of keys and users survives it. */
  lemma RenewalKeepsKeys(s: Server, user: nat, k: nat, lifeTime: int)
    requires KeyIntegrity(s)
    ensures KeyIntegrity(RenewReadStep(s, user)) && KeyIntegrity(RenewWriteStep(s, k, lifeTime))
  {
  }

  lemma CacheKeepsKeys(s: Server, now: int)
    requires KeyIntegrity(s)
    ensures KeyIntegrity(s.(cache := ProcessSet(s.cache, now))) && KeyIntegrity(s.(cache := ProcessTimer(s.cache, now)))
  {
  }

  lemma RegistrationKeepsKeys(s: Server, fp: Name, k: nat, lifeTime: int)
    requires KeyIntegrity(s)
    ensures KeyIntegrity(TryRegisterStep(s, fp)) && KeyIntegrity(QueueUserStep(s, k, lifeTime))
  {
  }

  lemma NoteContactKeepsKeys(s: Server, user: nat, fp: Name)
    requires KeyIntegrity(s) && user < |s.users|
    ensures KeyIntegrity(NoteContact(s, user, fp))
  {
    SameRegistryKeepsKeys(s, NoteContact(s, user, fp));
  }

  lemma IntroductionKeepsKeys(s: Server, k: nat, contact: nat)
    requires KeyIntegrity(s)
    ensures KeyIntegrity(IntroduceStep(s, k, contact))
  {
    if k < |s.registering| && contact < |s.users| {
      NoteContactKeepsKeys(s, contact, s.users[s.registering[k]].fp);
      var s' := NoteContact(s, contact, s.users[s.registering[k]].fp);
      NoteContactKeepsKeys(s', s.registering[k], s.users[contact].fp);
    }
  }

  lemma SessionsKeepKeys(s: Server, claimed: Name, signer: Name, conn: nat, i: nat, j: nat)
    requires KeyIntegrity(s)
    ensures KeyIntegrity(HandshakeStep(s, claimed, signer, conn)) && KeyIntegrity(JoinStep(s, i, j))
  {
  }

  lemma RegistrationStepKeepsKeys(s: Server, step: Step)
    requires KeyIntegrity(s) && Registers(step)
    ensures KeyIntegrity(Next(s, step))
  {
    match step
    case TryRegister(fp) => RegistrationKeepsKeys(s, fp, 0, 0);
    case QueueUser(k, life) => RegistrationKeepsKeys(s, Nobody, k, life);
    case Introduce(k, contact) => IntroductionKeepsKeys(s, k, contact);
  }

  lemma CacheStepKeepsKeys(s: Server, step: Step)
    requires KeyIntegrity(s) && Caches(step)
    ensures KeyIntegrity(Next(s, step))
  {
    if step.CacheSet? || step.CacheTimer? {
      CacheKeepsKeys(s, step.now);
    } else {
      RenewalStepKeepsKeys(s, step);
    }
  }

  lemma RenewalStepKeepsKeys(s: Server, step: Step)
    requires KeyIntegrity(s) && (step.RenewRead? || step.RenewWrite?)
    ensures KeyIntegrity(Next(s, step))
  {
    match step
    case RenewRead(user) => RenewalKeepsKeys(s, user, 0, 0);
    case RenewWrite(k, life) => RenewalKeepsKeys(s, 0, k, life);
  }

  lemma SessionStepKeepsKeys(s: Server, step: Step)
    requires KeyIntegrity(s) && (step.Handshake? || step.Join?)
    ensures KeyIntegrity(Next(s, step))
  {
    match step
    case Handshake(claimed, signer, conn) => SessionsKeepKeys(s, claimed, signer, conn, 0, 0);
    case Join(i, j) => SessionsKeepKeys(s, Nobody, Nobody, 0, i, j);
  }

  lemma ReceiveKeepsKeys(s: Server, i: nat, input: Input)
    requires KeyIntegrity(s) && i < |s.sessions|
    ensures KeyIntegrity(Receive(s, i, input))
  {
    ReceiveFrame(s, i, input);
    SameRegistryKeepsKeys(s, Receive(s, i, input));
  }

  lemma SendKeepsKeys(s: Server, i: nat)
    requires KeyIntegrity(s) && i < |s.sessions|
    ensures KeyIntegrity(Send(s, i))
  {
    SameRegistryKeepsKeys(s, Send(s, i));
  }

  lemma LoopStepKeepsKeys(s: Server, step: Step)
    requires KeyIntegrity(s) && !Quiet(step)
    ensures KeyIntegrity(Next(s, step))
  {
    match step
    case Recv(i, input) =>
      if i < |s.sessions| {
        ReceiveKeepsKeys(s, i, input);
      }
    case SendOne(i) =>
      if i < |s.sessions| {
        SendKeepsKeys(s, i);
      }
  }

  lemma StepKeepsKeys(s: Server, step: Step)
    requires KeyIntegrity(s)
    ensures KeyIntegrity(Next(s, step))
  {
    if !Quiet(step) {
      LoopStepKeepsKeys(s, step);
    } else if Registers(step) {
      RegistrationStepKeepsKeys(s, step);
    } else if Caches(step) {
      CacheStepKeepsKeys(s, step);
    } else {
      SessionStepKeepsKeys(s, step);
    }
  }

  lemma SameRegistryKeepsKeys(s: Server, r: Server)
    requires KeyIntegrity(s) && Grows(s, r) && |r.users| == |s.users|
    requires r.cache == s.cache && r.renewing == s.renewing && r.registering == s.registering
        && r.sessions == s.sessions
    ensures KeyIntegrity(r)
  {
  }

  /** In every reachable state, looking a fingerprint up yields only the user with that
      fingerprint. */
  lemma {:induction false} CacheNeverMixesUsers(steps: seq<Step>)
    ensures KeyIntegrity(Run(steps))
    ensures forall fp :: GetUser(Run(steps), fp).Some? ==> Run(steps).users[GetUser(Run(steps), fp).value].fp == fp
  {
    if steps != [] {
      CacheNeverMixesUsers(steps[..|steps| - 1]);
      StepKeepsKeys(Run(steps[..|steps| - 1]), steps[|steps| - 1]);
    }
  }

  // ---- authenticity ----

  /** A message fit for user `u`'s mailbox: an error report of the server, or a frame that
      names its sending user and this receiver. */
  ghost predicate Authentic(s: Server, u: nat, m: SessionMessage) {
    && u < |s.users| && m.receiver == u
    && match m.sender
       case None => m.msg.sender == Nobody && m.msg.body.Error?
       case Some(x) => x < |s.users| && m.msg.sender == s.users[x].fp && m.msg.receiver == s.users[u].fp
  }

  ghost predicate MailAuthentic(s: Server) {
    forall u: nat, i | 0 <= i < |Mail(s, u)| :: Authentic(s, u, Mail(s, u)[i])
  }

  ghost predicate PostsAuthentic(s: Server) {
    forall i | 0 <= i < |s.log.posts| :: Authentic(s, s.log.posts[i].to, s.log.posts[i].msg)
  }

  ghost predicate TakesAuthentic(s: Server) {
    forall i | 0 <= i < |s.log.takes| ::
      && Authentic(s, s.log.takes[i].from, s.log.takes[i].msg)
      && (s.log.takes[i].written ==> s.log.takes[i].msg.sender.Some?)
  }

  /** What is queued, what was tried on a mailbox and what was taken out of one. */
  ghost predicate AllAuthentic(s: Server) {
    MailAuthentic(s) && PostsAuthentic(s) && TakesAuthentic(s)
  }

  lemma AuthenticGrows(s: Server, r: Server, u: nat, m: SessionMessage)
    requires Grows(s, r) && Authentic(s, u, m)
    ensures Authentic(r, u, m)
  {
  }

  lemma SameLogKeepsAuthentic(s: Server, r: Server)
    requires Grows(s, r)
    ensures PostsAuthentic(s) && r.log.posts == s.log.posts ==> PostsAuthentic(r)
    ensures TakesAuthentic(s) && r.log.takes == s.log.takes ==> TakesAuthentic(r)
  {
  }

  lemma SameMailKeepsAuthentic(s: Server, r: Server)
    requires AllAuthentic(s) && Grows(s, r) && r.log.posts == s.log.posts && r.log.takes == s.log.takes
    requires forall u: nat :: Mail(r, u) == Mail(s, u)
    ensures AllAuthentic(r)
  {
    SameLogKeepsAuthentic(s, r);
    forall u: nat, i | 0 <= i < |Mail(r, u)| ensures Authentic(r, u, Mail(r, u)[i]) {
      AuthenticGrows(s, r, u, Mail(s, u)[i]);
    }
  }

  lemma PostKeepsAuthentic(s: Server, to: nat, m: SessionMessage)
    requires AllAuthentic(s) && Authentic(s, to, m)
    ensures AllAuthentic(PostTo(s, to, m))
  {
    var r := PostTo(s, to, m);
    assert Grows(s, r);
    SameLogKeepsAuthentic(s, r);
    forall u: nat, i | 0 <= i < |Mail(r, u)| ensures Authentic(r, u, Mail(r, u)[i]) {
      if i < |Mail(s, u)| {
        AuthenticGrows(s, r, u, Mail(s, u)[i]);
      } else {
        AuthenticGrows(s, r, to, m);
      }
    }
    forall i | 0 <= i < |r.log.posts| ensures Authentic(r, r.log.posts[i].to, r.log.posts[i].msg) {
      if i < |s.log.posts| {
        AuthenticGrows(s, r, s.log.posts[i].to, s.log.posts[i].msg);
      }
    }
  }

  lemma ReceiveKeepsAuthentic(s: Server, i: nat, input: Input)
    requires KeyIntegrity(s) && AllAuthentic(s) && i < |s.sessions|
    ensures AllAuthentic(Receive(s, i, input))
  {
    var user := s.sessions[i].user;
    match input
    case Malformed(id) => PostKeepsAuthentic(s, user, ErrorMessage(user, s.users[user].fp, InvalidMessage, id));
    case Parsed(frame) =>
      if frame.sender != s.users[user].fp {
        PostKeepsAuthentic(s, user, ErrorMessage(user, s.users[user].fp, VerifyError, frame.id));
      } else {
        DispatchKeepsAuthentic(s, i, frame);
      }
  }

  lemma DispatchKeepsAuthentic(s: Server, i: nat, frame: Frame)
    requires KeyIntegrity(s) && AllAuthentic(s) && i < |s.sessions|
    requires frame.sender == s.users[s.sessions[i].user].fp
    ensures AllAuthentic(Dispatch(s, i, frame))
  {
    var user := s.sessions[i].user;
    var accepted := Accept(s, i, frame);
    SameMailKeepsAuthentic(s, accepted);
    match GetUser(s, frame.receiver)
    case None => PostKeepsAuthentic(accepted, user, ErrorMessage(user, s.users[user].fp, ReceiverUnknown, frame.id));
    case Some(to) =>
      var noted := NoteContact(accepted, user, frame.receiver);
      SameMailKeepsAuthentic(accepted, noted);
      var m := SessionMessage(Some(user), to, frame);
      PostKeepsAuthentic(noted, to, m);
      var posted := PostTo(noted, to, m);
      PostKeepsAuthentic(posted, user, ErrorMessage(user, posted.users[user].fp, MessageNotDelivered, frame.id));
  }

  lemma SendKeepsAuthentic(s: Server, i: nat)
    requires KeyIntegrity(s) && AllAuthentic(s) && i < |s.sessions|
    ensures AllAuthentic(Send(s, i))
  {
    var r, user := Send(s, i), s.sessions[i].user;
    if s.users[user].mailbox != [] {
      var m := Mail(s, user)[0];
      assert Authentic(s, user, m);
      forall u: nat, j | 0 <= j < |Mail(r, u)| ensures Authentic(r, u, Mail(r, u)[j]) {
        AuthenticGrows(s, r, u, Mail(s, u)[if u == user then j + 1 else j]);
      }
      AuthenticGrows(s, r, user, m);
      SameLogKeepsAuthentic(s, r);
      forall k | 0 <= k < |s.log.takes| ensures Authentic(r, s.log.takes[k].from, s.log.takes[k].msg) {
        AuthenticGrows(s, r, s.log.takes[k].from, s.log.takes[k].msg);
      }
    }
  }

  lemma StepKeepsAuthentic(s: Server, step: Step)
    requires KeyIntegrity(s) && AllAuthentic(s)
    ensures AllAuthentic(Next(s, step))
  {
    match step
    case Recv(i, input) =>
      if i < |s.sessions| {
        ReceiveKeepsAuthentic(s, i, input);
      }
    case SendOne(i) =>
      if i < |s.sessions| {
        SendKeepsAuthentic(s, i);
      }
    case _ =>
      QuietFrame(s, step);
      SameMailKeepsAuthentic(s, Next(s, step));
  }

  /** Mailbox authenticity in every reachable state; and since the server's own reports name
      nobody, and nobody is never registered, none of them is ever written to a socket. */
  lemma {:induction false} MailboxesAuthentic(steps: seq<Step>)
    ensures AllAuthentic(Run(steps))
  {
    if steps != [] {
      MailboxesAuthentic(steps[..|steps| - 1]);
      CacheNeverMixesUsers(steps[..|steps| - 1]);
      StepKeepsAuthentic(Run(steps[..|steps| - 1]), steps[|steps| - 1]);
    }
  }

  // ---- mailboxes are bounded FIFO queues ----

  /** What went into a mailbox is what came out, followed by what is in it. */
  ghost predicate MailHistory(s: Server) {
    forall u: nat :: Stored(s.log.posts, u) == Taken(s.log.takes, u) + Mail(s, u) && |Mail(s, u)| <= MAILBOX_SLOTS
  }

  lemma PostKeepsHistory(s: Server, to: nat, m: SessionMessage)
    requires MailHistory(s) && to < |s.users|
    ensures MailHistory(PostTo(s, to, m))
  {
    var r := PostTo(s, to, m);
    forall u: nat ensures Stored(r.log.posts, u) == Taken(r.log.takes, u) + Mail(r, u)
        && |Mail(r, u)| <= MAILBOX_SLOTS {
      PostedSnoc(s.log.posts, r.log.posts[|s.log.posts|], u);
      assert Stored(s.log.posts, u) == Taken(s.log.takes, u) + Mail(s, u);
      assert u == to && |Mail(s, u)| < MAILBOX_SLOTS ==> Mail(r, u) == Mail(s, u) + [m];
    }
  }

  lemma PostedSnoc(posts: seq<Post>, p: Post, u: nat)
    ensures Stored(posts + [p], u) == Stored(posts, u) + if p.to == u && p.stored then [p.msg] else []
  {
    assert (posts + [p])[..|posts|] == posts;
  }

  lemma ReceiveKeepsHistory(s: Server, i: nat, input: Input)
    requires InRange(s) && MailHistory(s) && i < |s.sessions|
    ensures MailHistory(Receive(s, i, input))
  {
    var user := s.sessions[i].user;
    match input
    case Malformed(id) => PostKeepsHistory(s, user, ErrorMessage(user, s.users[user].fp, InvalidMessage, id));
    case Parsed(frame) =>
      if frame.sender != s.users[user].fp {
        PostKeepsHistory(s, user, ErrorMessage(user, s.users[user].fp, VerifyError, frame.id));
      } else {
        DispatchKeepsHistory(s, i, frame);
      }
  }

  lemma SameMailKeepsHistory(s: Server, r: Server)
    requires MailHistory(s) && r.log.posts == s.log.posts && r.log.takes == s.log.takes
    requires forall u: nat :: Mail(r, u) == Mail(s, u)
    ensures MailHistory(r)
  {
  }

  lemma DispatchKeepsHistory(s: Server, i: nat, frame: Frame)
    requires InRange(s) && MailHistory(s) && i < |s.sessions|
    ensures MailHistory(Dispatch(s, i, frame))
  {
    var user := s.sessions[i].user;
    var accepted := Accept(s, i, frame);
    SameMailKeepsHistory(s, accepted);
    match GetUser(s, frame.receiver)
    case None => PostKeepsHistory(accepted, user, ErrorMessage(user, s.users[user].fp, ReceiverUnknown, frame.id));
    case Some(to) =>
      var noted := NoteContact(accepted, user, frame.receiver);
      SameMailKeepsHistory(accepted, noted);
      var m := SessionMessage(Some(user), to, frame);
      PostKeepsHistory(noted, to, m);
      var posted := PostTo(noted, to, m);
      PostKeepsHistory(posted, user, ErrorMessage(user, posted.users[user].fp, MessageNotDelivered, frame.id));
  }

  lemma SendKeepsHistory(s: Server, i: nat)
    requires InRange(s) && MailHistory(s) && i < |s.sessions|
    ensures MailHistory(Send(s, i))
  {
    var r, user := Send(s, i), s.sessions[i].user;
    if s.users[user].mailbox != [] {
      assert r.log.takes[..|r.log.takes| - 1] == s.log.takes;
      forall u: nat ensures Stored(r.log.posts, u) == Taken(r.log.takes, u) + Mail(r, u)
          && |Mail(r, u)| <= MAILBOX_SLOTS {
        assert Stored(s.log.posts, u) == Taken(s.log.takes, u) + Mail(s, u);
        if u == user {
          HeadMoves(Taken(s.log.takes, u), Mail(s, u));
        }
      }
    }
  }

  lemma HeadMoves<T>(a: seq<T>, b: seq<T>)
    requires b != []
    ensures a + b == (a + [b[0]]) + b[1..]
  {
  }

  lemma StepKeepsHistory(s: Server, step: Step)
    requires InRange(s) && MailHistory(s)
    ensures MailHistory(Next(s, step))
  {
    match step
    case Recv(i, input) =>
      if i < |s.sessions| {
        ReceiveKeepsHistory(s, i, input);
      }
    case SendOne(i) =>
      if i < |s.sessions| {
        SendKeepsHistory(s, i);
      }
    case _ =>
      QuietFrame(s, step);
      SameMailKeepsHistory(s, Next(s, step));
  }

  /** Every mailbox, at all times: nothing is lost, duplicated or reordered between a stored
      post and the send loops, and never more than 100 messages wait. */
  lemma {:induction false} MailboxesAreBoundedQueues(steps: seq<Step>)
    ensures MailHistory(Run(steps))
  {
    if steps == [] {
      assert forall u: nat :: Mail(Run([]), u) == [];
    } else {
      MailboxesAreBoundedQueues(steps[..|steps| - 1]);
      StepKeepsHistory(Run(steps[..|steps| - 1]), steps[|steps| - 1]);
    }
  }

  // ---- outcomes ----

  /** What one dispatched frame does to the mailboxes: it goes into the receiver's, or an
      error report goes into the sender's, lost only when that one is full too; a sender
      writing to itself over a full mailbox loses both. Nothing else changes. */
  lemma DispatchEffect(s: Server, i: nat, frame: Frame)
    requires InRange(s) && i < |s.sessions|
    ensures
      var user, r := s.sessions[i].user, Dispatch(s, i, frame);
      var delivered := GetUser(s, frame.receiver).Some? && |Mail(s, GetUser(s, frame.receiver).value)| < MAILBOX_SLOTS;
      var code := if GetUser(s, frame.receiver).None? then ReceiverUnknown else MessageNotDelivered;
      forall u: nat :: Mail(r, u) == Mail(s, u) +
        if delivered then
          if u == GetUser(s, frame.receiver).value then [SessionMessage(Some(user), u, frame)] else []
        else
          if u == user && |Mail(s, u)| < MAILBOX_SLOTS
          then [ErrorMessage(user, s.users[user].fp, code, frame.id)]
          else []
  {
  }

  /** An attempt to put a frame of user object `from` into the mailbox of user object `to`. */
  datatype Attempt = Attempt(from: nat, to: nat, frame: Frame, stored: bool)

  /** The attempts to post clients' frames, as the mailboxes saw them. */
  function DataPosts(posts: seq<Post>): seq<Attempt> {
    if posts == [] then []
    else
      var rest, p := DataPosts(posts[..|posts| - 1]), posts[|posts| - 1];
      if p.msg.sender.Some? then rest + [Attempt(p.msg.sender.value, p.to, p.msg.msg, p.stored)] else rest
  }

  /** The attempts to report a delivery failure: to whom, why, about which frame. */
  function FailureReports(posts: seq<Post>): seq<(nat, ErrorCode, int)> {
    if posts == [] then []
    else
      var rest, p := FailureReports(posts[..|posts| - 1]), posts[|posts| - 1];
      if p.msg.sender.None? && p.msg.msg.body.Error? && p.msg.msg.body.code in {ReceiverUnknown, MessageNotDelivered}
      then rest + [(p.to, p.msg.msg.body.code, p.msg.msg.body.about)]
      else rest
  }

  /** The accepted frames with a known receiver, as the attempts due for them. */
  function KnownReceiver(accepted: seq<Accepted>): seq<Attempt> {
    if accepted == [] then []
    else
      var rest, a := KnownReceiver(accepted[..|accepted| - 1]), accepted[|accepted| - 1];
      if a.outcome.Unknown? then rest else rest + [Attempt(a.user, a.outcome.to, a.frame, a.outcome.Enqueued?)]
  }

  /** The accepted frames that failed, as reports due to their senders. */
  function ReportsDue(accepted: seq<Accepted>): seq<(nat, ErrorCode, int)> {
    if accepted == [] then []
    else
      var rest, a := ReportsDue(accepted[..|accepted| - 1]), accepted[|accepted| - 1];
      match a.outcome
      case Enqueued(_) => rest
      case Unknown => rest + [(a.user, ReceiverUnknown, a.frame.id)]
      case Full(_) => rest + [(a.user, MessageNotDelivered, a.frame.id)]
  }

  ghost predicate OutcomesMatch(log: Log) {
    && DataPosts(log.posts) == KnownReceiver(log.accepted)
    && FailureReports(log.posts) == ReportsDue(log.accepted)
  }

  lemma PostSnoc(posts: seq<Post>, p: Post)
    ensures DataPosts(posts + [p]) == DataPosts(posts) +
      if p.msg.sender.Some? then [Attempt(p.msg.sender.value, p.to, p.msg.msg, p.stored)] else []
    ensures FailureReports(posts + [p]) == FailureReports(posts) +
      if p.msg.sender.None? && p.msg.msg.body.Error? && p.msg.msg.body.code in {ReceiverUnknown, MessageNotDelivered}
      then [(p.to, p.msg.msg.body.code, p.msg.msg.body.about)] else []
  {
    assert (posts + [p])[..|posts|] == posts;
  }

  lemma AcceptedSnoc(accepted: seq<Accepted>, a: Accepted)
    ensures KnownReceiver(accepted + [a]) == KnownReceiver(accepted) +
      if a.outcome.Unknown? then [] else [Attempt(a.user, a.outcome.to, a.frame, a.outcome.Enqueued?)]
    ensures ReportsDue(accepted + [a]) == ReportsDue(accepted) +
      match a.outcome
      case Enqueued(_) => []
      case Unknown => [(a.user, ReceiverUnknown, a.frame.id)]
      case Full(_) => [(a.user, MessageNotDelivered, a.frame.id)]
  {
    assert (accepted + [a])[..|accepted|] == accepted;
  }

  /** One attempt for an accepted frame, and, if it fails, one report. */
  lemma KnownKeepsOutcomes(log: Log, a: Accepted, frame: Post, report: Post)
    requires OutcomesMatch(log) && !a.outcome.Unknown?
    requires frame == Post(a.outcome.to, SessionMessage(Some(a.user), a.outcome.to, a.frame), a.outcome.Enqueued?)
    requires report.to == a.user && report.msg.sender.None?
    requires report.msg.msg.body == Error(MessageNotDelivered, a.frame.id)
    ensures
      var tried := log.posts + [frame];
      OutcomesMatch(Log(log.accepted + [a], if a.outcome.Enqueued? then tried else tried + [report], log.takes))
  {
    AcceptedSnoc(log.accepted, a);
    PostSnoc(log.posts, frame);
    PostSnoc(log.posts + [frame], report);
  }

  lemma UnknownKeepsOutcomes(log: Log, a: Accepted, report: Post)
    requires OutcomesMatch(log) && a.outcome.Unknown?
    requires report.to == a.user && report.msg.sender.None?
    requires report.msg.msg.body == Error(ReceiverUnknown, a.frame.id)
    ensures OutcomesMatch(Log(log.accepted + [a], log.posts + [report], log.takes))
  {
    AcceptedSnoc(log.accepted, a);
    PostSnoc(log.posts, report);
  }

  lemma DispatchKeepsOutcomes(s: Server, i: nat, frame: Frame)
    requires InRange(s) && i < |s.sessions| && OutcomesMatch(s.log)
    ensures OutcomesMatch(Dispatch(s, i, frame).log)
  {
    var user := s.sessions[i].user;
    var a := Accepted(i, user, frame, OutcomeOf(s, frame.receiver));
    match GetUser(s, frame.receiver)
    case None =>
      var failed := PostError(Accept(s, i, frame), user, ReceiverUnknown, frame.id);
      UnknownKeepsOutcomes(s.log, a, failed.log.posts[|s.log.posts|]);
    case Some(to) =>
      var posted := PostTo(NoteContact(Accept(s, i, frame), user, frame.receiver), to,
                           SessionMessage(Some(user), to, frame));
      var failed := PostError(posted, user, MessageNotDelivered, frame.id);
      KnownKeepsOutcomes(s.log, a, posted.log.posts[|s.log.posts|], failed.log.posts[|posted.log.posts|]);
  }

  lemma ReceiveKeepsOutcomes(s: Server, i: nat, input: Input)
    requires InRange(s) && i < |s.sessions| && OutcomesMatch(s.log)
    ensures OutcomesMatch(Receive(s, i, input).log)
  {
    if input.Parsed? && input.frame.sender == s.users[s.sessions[i].user].fp {
      DispatchKeepsOutcomes(s, i, input.frame);
    } else {
      var r := Receive(s, i, input);
      PostSnoc(s.log.posts, r.log.posts[|s.log.posts|]);
    }
  }

  /** Over every run, in order and one to one: each accepted frame with a known receiver was
      tried once on the mailbox of a user object of that fingerprint, stored or refused as
      recorded, and each frame that failed, for want of a receiver or of room, had one
      report tried on its sender's. */
  lemma {:induction false} OutcomesAccounted(steps: seq<Step>)
    ensures OutcomesMatch(Run(steps).log) && PostsAuthentic(Run(steps))
  {
    MailboxesAuthentic(steps);
    if steps != [] {
      OutcomesAccounted(steps[..|steps| - 1]);
      StepKeepsOutcomes(Run(steps[..|steps| - 1]), steps[|steps| - 1]);
    }
  }

  lemma StepKeepsOutcomes(s: Server, step: Step)
    requires InRange(s) && OutcomesMatch(s.log)
    ensures OutcomesMatch(Next(s, step).log)
  {
    match step
    case Recv(i, input) =>
      if i < |s.sessions| {
        ReceiveKeepsOutcomes(s, i, input);
      }
    case SendOne(i) =>
    case _ => QuietFrame(s, step);
  }

  /** All that one step tries on a mailbox is stored exactly when that mailbox had room
      before the step. */
  ghost predicate TriedOn(s: Server, r: Server) {
    && s.log.posts <= r.log.posts
    && (forall k | |s.log.posts| <= k < |r.log.posts| ::
          r.log.posts[k].stored <==> |Mail(s, r.log.posts[k].to)| < MAILBOX_SLOTS)
  }

  lemma PostTries(s: Server, before: Server, to: nat, m: SessionMessage)
    requires to < |s.users| && before.log.posts <= s.log.posts && TriedOn(before, s)
    requires |Mail(s, to)| == |Mail(before, to)|
    ensures TriedOn(before, PostTo(s, to, m))
  {
  }

  lemma DispatchTries(s: Server, i: nat, frame: Frame)
    requires InRange(s) && i < |s.sessions|
    ensures TriedOn(s, Dispatch(s, i, frame))
  {
    var user := s.sessions[i].user;
    var accepted := Accept(s, i, frame);
    match GetUser(s, frame.receiver)
    case None => PostTries(accepted, s, user, ErrorMessage(user, s.users[user].fp, ReceiverUnknown, frame.id));
    case Some(to) =>
      var noted := NoteContact(accepted, user, frame.receiver);
      var m := SessionMessage(Some(user), to, frame);
      PostTries(noted, s, to, m);
      var posted := PostTo(noted, to, m);
      if OutcomeOf(s, frame.receiver).Full? {
        PostTries(posted, s, user, ErrorMessage(user, posted.users[user].fp, MessageNotDelivered, frame.id));
      }
  }

  lemma ReceiveTries(s: Server, i: nat, input: Input)
    requires InRange(s) && i < |s.sessions|
    ensures TriedOn(s, Receive(s, i, input))
  {
    var user := s.sessions[i].user;
    match input
    case Malformed(id) => PostTries(s, s, user, ErrorMessage(user, s.users[user].fp, InvalidMessage, id));
    case Parsed(frame) =>
      if frame.sender != s.users[user].fp {
        PostTries(s, s, user, ErrorMessage(user, s.users[user].fp, VerifyError, frame.id));
      } else {
        DispatchTries(s, i, frame);
      }
  }

  lemma StepTries(s: Server, step: Step)
    requires InRange(s)
    ensures TriedOn(s, Next(s, step))
  {
    match step
    case Recv(i, input) =>
      if i < |s.sessions| {
        ReceiveTries(s, i, input);
      }
    case SendOne(i) =>
    case _ => QuietFrame(s, step);
  }

  /** Attempt `k`, between two states of a run, was lost exactly when the mailbox was full. */
  ghost predicate TriedBetween(s: Server, r: Server, k: nat, p: Post) {
    && |s.log.posts| <= k < |r.log.posts| && r.log.posts[k] == p
    && (!p.stored <==> |Mail(s, p.to)| >= MAILBOX_SLOTS)
  }

  /** The state after the first `j` steps of a run. */
  function At(steps: seq<Step>, j: nat): Server
    requires j <= |steps|
  {
    Run(steps[..j])
  }

  lemma AtStep(steps: seq<Step>, j: nat)
    requires j < |steps|
    ensures InRange(At(steps, j)) && At(steps, j + 1) == Next(At(steps, j), steps[j])
  {
    assert steps[..j + 1][..j] == steps[..j];
  }

  /** Over every run, any attempt, of a frame or of a report, was made by one step of the
      run, and was lost exactly when the mailbox was full just before that step. */
  lemma LostExactlyWhenFull(steps: seq<Step>, k: nat) returns (j: nat)
    requires k < |Run(steps).log.posts|
    ensures j < |steps| && TriedBetween(At(steps, j), At(steps, j + 1), k, Run(steps).log.posts[k])
  {
    var trace := States(steps);
    assert steps[..|steps|] == steps;
    j := TriedInTrace(trace, |steps|, k);
  }

  lemma States(steps: seq<Step>) returns (trace: seq<Server>)
    ensures |trace| == |steps| + 1 && forall j | 0 <= j <= |steps| :: trace[j] == At(steps, j)
    ensures trace[0].log.posts == [] && forall j | 0 <= j < |steps| :: TriedOn(trace[j], trace[j + 1])
  {
    trace := seq(|steps| + 1, j requires 0 <= j <= |steps| => At(steps, j));
    forall j | 0 <= j < |steps| ensures TriedOn(trace[j], trace[j + 1]) {
      AtTries(steps, j);
    }
    assert trace[0] == Initial();
  }

  lemma AtTries(steps: seq<Step>, j: nat)
    requires j < |steps|
    ensures TriedOn(At(steps, j), At(steps, j + 1))
  {
    AtStep(steps, j);
    StepTries(At(steps, j), steps[j]);
  }

  lemma {:induction false} TriedInTrace(trace: seq<Server>, n: nat, k: nat) returns (j: nat)
    requires n < |trace| && trace[0].log.posts == [] && k < |trace[n].log.posts|
    requires forall i | 0 <= i < |trace| - 1 :: TriedOn(trace[i], trace[i + 1])
    ensures j < n && TriedBetween(trace[j], trace[j + 1], k, trace[n].log.posts[k])
  {
    var i := n - 1;
    assert TriedOn(trace[i], trace[i + 1]);
    if k < |trace[i].log.posts| {
      j := TriedInTrace(trace, i, k);
    } else {
      j := i;
    }
  }

  // ---- in-order, at-most-once relay ----

  ghost predicate InOrder(s: Server) {
    PostsToUsers(s) && forall u: nat, sender | u < |s.users| && sender != Nobody :: MailboxInOrder(s, u, sender)
  }

  ghost predicate PostsToUsers(s: Server) {
    forall i | 0 <= i < |s.log.posts| :: s.log.posts[i].to < |s.users|
  }

  ghost predicate MailboxInOrder(s: Server, u: nat, sender: Name)
    requires u < |s.users|
  {
    Subsequence(FromSender(Stored(s.log.posts, u), sender), AcceptedFrom(s.log.accepted, sender, s.users[u].fp))
  }

  lemma {:induction false} NothingStored(posts: seq<Post>, u: nat)
    requires forall i | 0 <= i < |posts| :: posts[i].to != u
    ensures Stored(posts, u) == []
  {
    if posts != [] {
      NothingStored(posts[..|posts| - 1], u);
    }
  }

  lemma QuietKeepsOrder(s: Server, r: Server)
    requires InOrder(s) && Grows(s, r) && r.log == s.log
    ensures InOrder(r)
  {
    forall u: nat, sender | u < |r.users| && sender != Nobody ensures MailboxInOrder(r, u, sender) {
      if u < |s.users| {
        assert MailboxInOrder(s, u, sender);
      } else {
        NothingStored(s.log.posts, u);
      }
    }
  }

  /** A post that names nobody does not concern any sender's order. */
  lemma ErrorKeepsOrder(s: Server, to: nat, m: SessionMessage)
    requires InOrder(s) && to < |s.users| && m.msg.sender == Nobody
    ensures InOrder(PostTo(s, to, m))
  {
    var r := PostTo(s, to, m);
    var p := r.log.posts[|s.log.posts|];
    assert r.log.posts[..|r.log.posts| - 1] == s.log.posts;
    forall u: nat, sender | u < |r.users| && sender != Nobody ensures MailboxInOrder(r, u, sender) {
      assert MailboxInOrder(s, u, sender);
      var before := Stored(s.log.posts, u);
      assert (before + [m])[..|before|] == before;
    }
  }

  lemma StoredSnoc(posts: seq<Post>, p: Post, u: nat, sender: Name)
    ensures FromSender(Stored(posts + [p], u), sender) ==
      FromSender(Stored(posts, u), sender) +
      if p.to == u && p.stored && p.msg.msg.sender == sender then [p.msg.msg] else []
  {
    assert (posts + [p])[..|posts|] == posts;
    var before := Stored(posts, u);
    assert (before + [p.msg])[..|before|] == before;
  }

  lemma AcceptedFromSnoc(accepted: seq<Accepted>, a: Accepted, sender: Name, fp: Name)
    ensures AcceptedFrom(accepted + [a], sender, fp) ==
      AcceptedFrom(accepted, sender, fp) + if a.frame.sender == sender && a.frame.receiver == fp then [a.frame] else []
  {
    assert (accepted + [a])[..|accepted|] == accepted;
  }

  /** One acceptance and one post of the accepted frame to the user of that fingerprint. */
  lemma PostInOrder(posts: seq<Post>, accepted: seq<Accepted>, p: Post, a: Accepted, u: nat, sender: Name, fp: Name)
    requires Subsequence(FromSender(Stored(posts, u), sender), AcceptedFrom(accepted, sender, fp))
    requires p.msg.msg == a.frame && (p.to == u ==> a.frame.receiver == fp)
    ensures Subsequence(FromSender(Stored(posts + [p], u), sender), AcceptedFrom(accepted + [a], sender, fp))
  {
    StoredSnoc(posts, p, u, sender);
    AcceptedFromSnoc(accepted, a, sender, fp);
    SubsequenceMaybe(FromSender(Stored(posts, u), sender), AcceptedFrom(accepted, sender, fp), a.frame,
                     p.to == u && p.stored && a.frame.sender == sender,
                     a.frame.sender == sender && a.frame.receiver == fp);
  }

  /** Accepting a frame and trying it on its receiver's mailbox. */
  lemma AcceptKeepsOrder(s: Server, i: nat, frame: Frame, to: nat)
    requires KeyIntegrity(s) && InOrder(s) && i < |s.sessions| && GetUser(s, frame.receiver) == Some(to)
    ensures InOrder(PostTo(NoteContact(Accept(s, i, frame), s.sessions[i].user, frame.receiver), to,
                           SessionMessage(Some(s.sessions[i].user), to, frame)))
  {
    var user := s.sessions[i].user;
    var m := SessionMessage(Some(user), to, frame);
    var r := PostTo(NoteContact(Accept(s, i, frame), user, frame.receiver), to, m);
    var p, a := r.log.posts[|s.log.posts|], r.log.accepted[|s.log.accepted|];
    forall u: nat, sender | u < |r.users| && sender != Nobody ensures MailboxInOrder(r, u, sender) {
      assert MailboxInOrder(s, u, sender);
      assert r.users[u].fp == s.users[u].fp;
      PostInOrder(s.log.posts, s.log.accepted, p, a, u, sender, s.users[u].fp);
    }
  }

  /** Accepting a frame that nobody receives. */
  lemma UnknownKeepsOrder(s: Server, i: nat, frame: Frame)
    requires InRange(s) && InOrder(s) && i < |s.sessions|
    ensures InOrder(Accept(s, i, frame))
  {
    var r := Accept(s, i, frame);
    assert r.log.accepted[..|s.log.accepted|] == s.log.accepted;
    forall u: nat, sender | u < |r.users| && sender != Nobody ensures MailboxInOrder(r, u, sender) {
      assert MailboxInOrder(s, u, sender);
      SubsequenceGrow(FromSender(Stored(s.log.posts, u), sender),
                      AcceptedFrom(s.log.accepted, sender, s.users[u].fp), frame);
    }
  }

  lemma ReceiveKeepsOrder(s: Server, i: nat, input: Input)
    requires KeyIntegrity(s) && InOrder(s) && i < |s.sessions|
    ensures InOrder(Receive(s, i, input))
  {
    var user := s.sessions[i].user;
    match input
    case Malformed(id) => ErrorKeepsOrder(s, user, ErrorMessage(user, s.users[user].fp, InvalidMessage, id));
    case Parsed(frame) =>
      if frame.sender != s.users[user].fp {
        ErrorKeepsOrder(s, user, ErrorMessage(user, s.users[user].fp, VerifyError, frame.id));
      } else {
        DispatchKeepsOrder(s, i, frame);
      }
  }

  lemma DispatchKeepsOrder(s: Server, i: nat, frame: Frame)
    requires KeyIntegrity(s) && InOrder(s) && i < |s.sessions|
    ensures InOrder(Dispatch(s, i, frame))
  {
    var user := s.sessions[i].user;
    match GetUser(s, frame.receiver)
    case None =>
      UnknownKeepsOrder(s, i, frame);
      ErrorKeepsOrder(Accept(s, i, frame), user, ErrorMessage(user, s.users[user].fp, ReceiverUnknown, frame.id));
    case Some(to) =>
      AcceptKeepsOrder(s, i, frame, to);
      var posted := PostTo(NoteContact(Accept(s, i, frame), user, frame.receiver), to,
                           SessionMessage(Some(user), to, frame));
      ErrorKeepsOrder(posted, user, ErrorMessage(user, posted.users[user].fp, MessageNotDelivered, frame.id));
  }

  lemma SendKeepsOrder(s: Server, i: nat)
    requires InRange(s) && InOrder(s) && i < |s.sessions|
    ensures InOrder(Send(s, i))
  {
    var r := Send(s, i);
    forall u: nat, sender | u < |r.users| && sender != Nobody ensures MailboxInOrder(r, u, sender) {
      assert MailboxInOrder(s, u, sender);
    }
  }

  lemma {:induction false} StoredInOrder(steps: seq<Step>)
    ensures InOrder(Run(steps))
  {
    if steps != [] {
      var s, step := Run(steps[..|steps| - 1]), steps[|steps| - 1];
      StoredInOrder(steps[..|steps| - 1]);
      CacheNeverMixesUsers(steps[..|steps| - 1]);
      StepKeepsOrder(s, step);
    }
  }

  lemma StepKeepsOrder(s: Server, step: Step)
    requires KeyIntegrity(s) && InOrder(s)
    ensures InOrder(Next(s, step))
  {
    if Quiet(step) {
      QuietFrame(s, step);
      QuietKeepsOrder(s, Next(s, step));
    } else {
      LoopStepKeepsOrder(s, step);
    }
  }

  lemma LoopStepKeepsOrder(s: Server, step: Step)
    requires KeyIntegrity(s) && InOrder(s) && !Quiet(step)
    ensures InOrder(Next(s, step))
  {
    if step.Recv? {
      RecvStepKeepsOrder(s, step.session, step.input);
    } else {
      SendStepKeepsOrder(s, step.session);
    }
  }

  lemma RecvStepKeepsOrder(s: Server, i: nat, input: Input)
    requires KeyIntegrity(s) && InOrder(s)
    ensures InOrder(if i < |s.sessions| then Receive(s, i, input) else s)
  {
    if i < |s.sessions| {
      ReceiveKeepsOrder(s, i, input);
    }
  }

  lemma SendStepKeepsOrder(s: Server, i: nat)
    requires InRange(s) && InOrder(s)
    ensures InOrder(if i < |s.sessions| then Send(s, i) else s)
  {
    if i < |s.sessions| {
      SendKeepsOrder(s, i);
    }
  }

  lemma {:induction false} FromSenderConcat(a: seq<SessionMessage>, b: seq<SessionMessage>, sender: Name)
    ensures FromSender(a + b, sender) == FromSender(a, sender) + FromSender(b, sender)
    decreases |b|
  {
    if b == [] {
      assert a + b == a;
    } else {
      assert (a + b)[..|a + b| - 1] == a + b[..|b| - 1];
      FromSenderConcat(a, b[..|b| - 1], sender);
    }
  }

  lemma {:induction false} WrittenOfTaken(takes: seq<Take>, sender: Name, u: nat)
    ensures Subsequence(WrittenFrom(takes, sender, u), FromSender(Taken(takes, u), sender))
  {
    if takes != [] {
      var takes', t := takes[..|takes| - 1], takes[|takes| - 1];
      var w, k := WrittenFrom(takes', sender, u), Taken(takes', u);
      WrittenOfTaken(takes', sender, u);
      if t.from == u && t.msg.msg.sender == sender {
        assert (k + [t.msg])[..|k|] == k;
        SubsequenceBoth(w, FromSender(k, sender), t.msg.msg);
        SubsequenceGrow(w, FromSender(k, sender), t.msg.msg);
      } else if t.from == u {
        assert (k + [t.msg])[..|k|] == k;
      }
    }
  }

  /** The frames from one sender written to the sockets of one user object, through however
      many send loops, are a subsequence of the frames accepted from that sender for that
      user: in order, each at most once, whatever was dropped on the way. */
  lemma RelayInOrderAtMostOnce(steps: seq<Step>, u: nat, sender: Name)
    requires u < |Run(steps).users| && sender != Nobody
    ensures
      var s := Run(steps);
      Subsequence(WrittenFrom(s.log.takes, sender, u), AcceptedFrom(s.log.accepted, sender, s.users[u].fp))
  {
    var s := Run(steps);
    var taken, mail := Taken(s.log.takes, u), Mail(s, u);
    MailboxesAreBoundedQueues(steps);
    StoredInOrder(steps);
    assert MailboxInOrder(s, u, sender);
    assert Stored(s.log.posts, u) == taken + mail;
    FromSenderConcat(taken, mail, sender);
    WrittenOfTaken(s.log.takes, sender, u);
    SubsequencePrefix(FromSender(taken, sender), FromSender(mail, sender));
    SubsequenceTransitive(FromSender(taken, sender), FromSender(taken + mail, sender),
                          AcceptedFrom(s.log.accepted, sender, s.users[u].fp));
    SubsequenceTransitive(WrittenFrom(s.log.takes, sender, u), FromSender(taken, sender),
                          AcceptedFrom(s.log.accepted, sender, s.users[u].fp));
  }

  // ---- who submitted what was written ----

  /** Every accepted frame came through a session whose signer is its sender. */
  ghost predicate AcceptedFromSigner(s: Server) {
    forall i | 0 <= i < |s.log.accepted| ::
      var a := s.log.accepted[i];
      && a.session < |s.sessions|
      && s.sessions[a.session].user == a.user
      && s.sessions[a.session].signer == a.frame.sender
  }

  lemma StepKeepsSigners(s: Server, step: Step)
    requires KeyIntegrity(s) && AcceptedFromSigner(s)
    ensures AcceptedFromSigner(Next(s, step))
  {
    StepGrows(s, step);
    var r := Next(s, step);
    if step.Recv? && step.session < |s.sessions| && step.input.Parsed?
       && step.input.frame.sender == s.users[s.sessions[step.session].user].fp {
      var i, frame := step.session, step.input.frame;
      assert r.log.accepted == s.log.accepted + [Accepted(i, s.sessions[i].user, frame, OutcomeOf(s, frame.receiver))];
    } else if step.Recv? || step.SendOne? {
      assert r.log.accepted == s.log.accepted;
    } else {
      QuietFrame(s, step);
    }
  }

  lemma {:induction false} SignersAccepted(steps: seq<Step>)
    ensures AcceptedFromSigner(Run(steps))
  {
    if steps != [] {
      SignersAccepted(steps[..|steps| - 1]);
      CacheNeverMixesUsers(steps[..|steps| - 1]);
      StepKeepsSigners(Run(steps[..|steps| - 1]), steps[|steps| - 1]);
    }
  }

  lemma {:induction false} WrittenMember(takes: seq<Take>, k: nat)
    requires k < |takes| && takes[k].written
    ensures takes[k].msg.msg in WrittenFrom(takes, takes[k].msg.msg.sender, takes[k].from)
  {
    if k < |takes| - 1 {
      WrittenMember(takes[..|takes| - 1], k);
    }
  }

  lemma {:induction false} AcceptedMember(accepted: seq<Accepted>, sender: Name, receiver: Name, f: Frame)
    requires f in AcceptedFrom(accepted, sender, receiver)
    ensures exists i :: 0 <= i < |accepted| && accepted[i].frame == f
  {
    var n := |accepted| - 1;
    if accepted[n].frame != f {
      AcceptedMember(accepted[..n], sender, receiver, f);
      var i :| 0 <= i < n && accepted[..n][i].frame == f;
      assert accepted[i].frame == f;
    }
  }

  /** Whatever reaches a socket is a client's frame for that user, accepted earlier through a
      session whose handshake was signed with the key of the sender the frame names. */
  lemma WrittenWasSubmitted(steps: seq<Step>, k: nat)
    requires k < |Run(steps).log.takes| && Run(steps).log.takes[k].written
    ensures
      var s := Run(steps);
      var take := s.log.takes[k];
      && take.from < |s.users| && take.msg.msg.receiver == s.users[take.from].fp
      && exists i :: 0 <= i < |s.log.accepted| && s.log.accepted[i].frame == take.msg.msg
           && s.log.accepted[i].session < |s.sessions|
           && s.sessions[s.log.accepted[i].session].signer == take.msg.msg.sender
  {
    var s := Run(steps);
    var take := s.log.takes[k];
    var f := take.msg.msg;
    CacheNeverMixesUsers(steps);
    MailboxesAuthentic(steps);
    SignersAccepted(steps);
    assert Authentic(s, take.from, take.msg);
    RelayInOrderAtMostOnce(steps, take.from, f.sender);
    var written, accepted := WrittenFrom(s.log.takes, f.sender, take.from),
        AcceptedFrom(s.log.accepted, f.sender, f.receiver);
    WrittenMember(s.log.takes, k);
    SubsequenceMultiset(written, accepted);
    assert f in multiset(written);
    AcceptedMember(s.log.accepted, f.sender, f.receiver, f);
  }
}
