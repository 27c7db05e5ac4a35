/**
  The server as a transition system: user objects with bounded mailboxes, the cache that
  maps fingerprints to them, sessions bound by handshake, and the steps of the receive and
  send loops. Clients are arbitrary here. A user object is named by its creation order;
  the same fingerprint may be registered again after it expired.
*/
module Relay {
  import opened Basics
  import opened CacheSpec
  import opened Frames

  const MAILBOX_SLOTS := 100
  const CONTACT_LIMIT := 100
  const REQUEST_SLOTS := 100

  datatype SessionMessage = SessionMessage(sender: Option<nat>, receiver: nat, msg: Frame)

  datatype User = User(
    fp: Name,
    contacts: map<Name, Name>,
    blackList: set<Name>,
    contactLimit: nat,
    mailbox: seq<SessionMessage>)

  /** `user` is the session's user object, `signer` the key that signed the handshake. */
  datatype Session = Session(user: nat, signer: Name, conn: nat)

  /** What became of an accepted frame: the cache named a user object, and its mailbox took
      the frame or was full, or the cache named none. */
  datatype Outcome = Enqueued(to: nat) | Full(to: nat) | Unknown

  datatype Accepted = Accepted(session: nat, user: nat, frame: Frame, outcome: Outcome)

  datatype Post = Post(to: nat, msg: SessionMessage, stored: bool)

  datatype Take = Take(from: nat, msg: SessionMessage, written: bool)

  /** History: frames accepted from clients, every attempt to post, and what the send loops
      took out of the mailboxes and whether they wrote it to a socket. */
  datatype Log = Log(accepted: seq<Accepted>, posts: seq<Post>, takes: seq<Take>)

  datatype Server = Server(
    users: seq<User>,
    cache: Store<Name, nat>,
    registering: seq<nat>,
    renewing: seq<(Name, nat)>,
    sessions: seq<Session>,
    log: Log)

  function Initial(): Server {
    Server([], Store(map[], [], []), [], [], [], Log([], [], []))
  }

  /** Every stored reference to a user object is a reference to an existing one. */
  ghost predicate InRange(s: Server) {
    && (forall k | k in s.cache.entries :: s.cache.entries[k].value < |s.users|)
    && (forall i | 0 <= i < |s.cache.chSet| :: s.cache.chSet[i].value < |s.users|)
    && (forall i | 0 <= i < |s.registering| :: s.registering[i] < |s.users|)
    && (forall i | 0 <= i < |s.renewing| :: s.renewing[i].1 < |s.users|)
    && (forall i | 0 <= i < |s.sessions| :: s.sessions[i].user < |s.users|)
  }

  // ---- mailboxes ----

  /** A non-blocking send to the user's mailbox. */
  function PostTo(s: Server, to: nat, msg: SessionMessage): (r: Server)
    requires to < |s.users|
    ensures InRange(s) ==> InRange(r)
    ensures SameButMail(s, r)
  {
    var u := s.users[to];
    var stored := |u.mailbox| < MAILBOX_SLOTS;
    s.(users := s.users[to := u.(mailbox := if stored then u.mailbox + [msg] else u.mailbox)],
       log := s.log.(posts := s.log.posts + [Post(to, msg, stored)]))
  }

  /** Only mailboxes and the history differ. */
  ghost predicate SameButMail(s: Server, r: Server) {
    && |r.users| == |s.users|
    && (forall i | 0 <= i < |s.users| :: r.users[i].(mailbox := []) == s.users[i].(mailbox := []))
    && r == s.(users := r.users, log := r.log)
  }

  function ErrorMessage(user: nat, fp: Name, code: ErrorCode, about: int): SessionMessage {
    SessionMessage(None, user, Frame(0, Nobody, fp, Error(code, about)))
  }

  function PostError(s: Server, user: nat, code: ErrorCode, about: int): (r: Server)
    requires user < |s.users|
    ensures InRange(s) ==> InRange(r)
    ensures SameButMail(s, r)
  {
    PostTo(s, user, ErrorMessage(user, s.users[user].fp, code, about))
  }

  // ---- the receive loop ----

  function GetUser(s: Server, fp: Name): Option<nat> {
    Lookup(s.cache.entries, fp)
  }

  function NoteContact(s: Server, user: nat, fp: Name): (r: Server)
    requires user < |s.users|
    ensures InRange(s) ==> InRange(r)
    ensures |r.users| == |s.users|
  {
    s.(users := s.users[user := s.users[user].(contacts := s.users[user].contacts[fp := fp])])
  }

  function OutcomeOf(s: Server, fp: Name): Outcome
    requires InRange(s)
  {
    match GetUser(s, fp)
    case None => Unknown
    case Some(r) => if |s.users[r].mailbox| < MAILBOX_SLOTS then Enqueued(r) else Full(r)
  }

  function Accept(s: Server, i: nat, frame: Frame): (r: Server)
    requires InRange(s) && i < |s.sessions|
    ensures InRange(r) && r == s.(log := r.log)
  {
    var a := Accepted(i, s.sessions[i].user, frame, OutcomeOf(s, frame.receiver));
    s.(log := s.log.(accepted := s.log.accepted + [a]))
  }

  function Dispatch(s: Server, i: nat, frame: Frame): (r: Server)
    requires InRange(s) && i < |s.sessions|
    ensures InRange(r) && |r.users| == |s.users|
  {
    var user := s.sessions[i].user;
    match GetUser(s, frame.receiver)
    case None => PostError(Accept(s, i, frame), user, ReceiverUnknown, frame.id)
    case Some(to) =>
      var posted := PostTo(NoteContact(Accept(s, i, frame), user, frame.receiver), to,
                           SessionMessage(Some(user), to, frame));
      if OutcomeOf(s, frame.receiver).Enqueued? then posted
      else PostError(posted, user, MessageNotDelivered, frame.id)
  }

  /** What arrives on a socket: bytes that do not parse, or a frame. */
  datatype Input = Malformed(id: int) | Parsed(frame: Frame)

  function Receive(s: Server, i: nat, input: Input): (r: Server)
    requires InRange(s) && i < |s.sessions|
    ensures InRange(r) && |r.users| == |s.users|
  {
    var user := s.sessions[i].user;
    match input
    case Malformed(id) => PostError(s, user, InvalidMessage, id)
    case Parsed(frame) =>
      if frame.sender != s.users[user].fp then PostError(s, user, VerifyError, frame.id)
      else Dispatch(s, i, frame)
  }

  // ---- the send loop ----

  predicate CheckContact(s: Server, user: nat, fp: Name)
    requires user < |s.users|
  {
    fp !in s.users[user].blackList && GetUser(s, fp).Some?
  }

  /** Dequeue and, if the sender passes, write: one step. */
  function Send(s: Server, i: nat): (r: Server)
    requires InRange(s) && i < |s.sessions|
    ensures InRange(r) && |r.users| == |s.users|
  {
    var user := s.sessions[i].user;
    var u := s.users[user];
    if u.mailbox == [] then s
    else
      var take := Take(user, u.mailbox[0], CheckContact(s, user, u.mailbox[0].msg.sender));
      s.(users := s.users[user := u.(mailbox := u.mailbox[1..])], log := s.log.(takes := s.log.takes + [take]))
  }

  /** The frame that `Send` puts on the session's socket. */
  function Written(s: Server, i: nat): Option<Frame>
    requires InRange(s) && i < |s.sessions|
  {
    var u := s.users[s.sessions[i].user];
    if u.mailbox != [] && CheckContact(s, s.sessions[i].user, u.mailbox[0].msg.sender)
    then Some(u.mailbox[0].msg)
    else None
  }

  // ---- registration, the cache, handshakes ----

  datatype Step =
    | TryRegister(fp: Name)
    | Introduce(k: nat, contact: nat)
    | QueueUser(k: nat, lifeTime: int)
    | CacheSet(now: int)
    | CacheTimer(now: int)
    | RenewRead(user: nat)
    | RenewWrite(k: nat, lifeTime: int)
    | Handshake(claimed: Name, signer: Name, conn: nat)
    | Join(earlier: nat, origin: nat)
    | Recv(session: nat, input: Input)
    | SendOne(session: nat)

  function NewUser(fp: Name): User {
    User(fp, map[], {}, CONTACT_LIMIT, [])
  }

  /** A key that is not cached gets a new user object, still to be put into the cache. */
  function TryRegisterStep(s: Server, fp: Name): (r: Server)
    ensures InRange(s) ==> InRange(r)
  {
    if fp == Nobody || fp in s.cache.entries then s
    else s.(users := s.users + [NewUser(fp)], registering := s.registering + [|s.users|])
  }

  /** Registration by invitation makes the two users contacts, or gives up. */
  function IntroduceStep(s: Server, k: nat, contact: nat): (r: Server)
    requires InRange(s)
    ensures InRange(r)
  {
    if k >= |s.registering| || contact >= |s.users| then s
    else if |s.users[contact].contacts| >= s.users[contact].contactLimit then s.(registering := Cut(s.registering, k))
    else
      var s' := NoteContact(s, contact, s.users[s.registering[k]].fp);
      if |s'.users[s.registering[k]].contacts| >= s'.users[s.registering[k]].contactLimit
      then s'.(registering := Cut(s.registering, k))
      else NoteContact(s', s.registering[k], s.users[contact].fp)
  }

  function QueueUserStep(s: Server, k: nat, lifeTime: int): (r: Server)
    requires InRange(s)
    ensures InRange(r)
  {
    if k >= |s.registering| || |s.cache.chSet| >= REQUEST_SLOTS then s
    else
      var u := s.registering[k];
      s.(cache := QueueSet(s.cache, Request(s.users[u].fp, u, lifeTime)), registering := Cut(s.registering, k))
  }

  /** Renewal reads the cache, and writes what it read back later. */
  function RenewReadStep(s: Server, user: nat): (r: Server)
    ensures InRange(s) ==> InRange(r)
  {
    if user >= |s.users| then s
    else
      match GetUser(s, s.users[user].fp)
      case None => s
      case Some(u) => s.(renewing := s.renewing + [(s.users[user].fp, u)])
  }

  function RenewWriteStep(s: Server, k: nat, lifeTime: int): (r: Server)
    ensures InRange(s) ==> InRange(r)
  {
    if k >= |s.renewing| || |s.cache.chSet| >= REQUEST_SLOTS then s
    else
      s.(cache := QueueSet(s.cache, Request(s.renewing[k].0, s.renewing[k].1, lifeTime)),
         renewing := Cut(s.renewing, k))
  }

  /** The signature verifies when the signer holds the key of the user found. */
  function HandshakeStep(s: Server, claimed: Name, signer: Name, conn: nat): (r: Server)
    requires InRange(s)
    ensures InRange(r)
  {
    match GetUser(s, claimed)
    case None => s
    case Some(u) => if s.users[u].fp == signer then s.(sessions := s.sessions + [Session(u, signer, conn)]) else s
  }

  /** An earlier session of the same user takes over a new session's connection. */
  function JoinStep(s: Server, earlier: nat, origin: nat): (r: Server)
    ensures InRange(s) ==> InRange(r)
  {
    if earlier < |s.sessions| && origin < |s.sessions| && s.sessions[earlier].signer == s.sessions[origin].signer
    then s.(sessions := s.sessions + [s.sessions[earlier].(conn := s.sessions[origin].conn)])
    else s
  }

  function Next(s: Server, step: Step): (r: Server)
    requires InRange(s)
    ensures InRange(r)
  {
    match step
    case TryRegister(fp) => TryRegisterStep(s, fp)
    case Introduce(k, contact) => IntroduceStep(s, k, contact)
    case QueueUser(k, life) => QueueUserStep(s, k, life)
    case CacheSet(now) => s.(cache := ProcessSet(s.cache, now))
    case CacheTimer(now) => s.(cache := ProcessTimer(s.cache, now))
    case RenewRead(user) => RenewReadStep(s, user)
    case RenewWrite(k, life) => RenewWriteStep(s, k, life)
    case Handshake(claimed, signer, conn) => HandshakeStep(s, claimed, signer, conn)
    case Join(i, j) => JoinStep(s, i, j)
    case Recv(i, input) => if i < |s.sessions| then Receive(s, i, input) else s
    case SendOne(i) => if i < |s.sessions| then Send(s, i) else s
  }

  function Run(steps: seq<Step>): (s: Server)
    ensures InRange(s)
  {
    if steps == [] then Initial() else Next(Run(steps[..|steps| - 1]), steps[|steps| - 1])
  }
}
