/**
  A run in which the order to a receiver is lost: its fingerprint is registered again while
  a frame waits in its old mailbox; the frame sent later, to the new mailbox, is written
  first. Which states can come to that is the subject of `RelaySettled`.
*/
module RelayReorder {
  import opened Basics
  import opened CacheSpec
  import opened Frames
  import opened Relay
  import opened RelayLaws
  import opened RelayOrder
  import opened RelayTrace

  // ---- the continuation ----

  const SHORT := 10
  const LONG := 1000
  const LATER := 100

  function FrameFrom(id: int, sender: Name, fp: Name): Frame {
    Frame(id, sender, fp, Other)
  }

  /** With `g` registrations under way and `n` sessions there already, sender and receiver
      register and shake hands; the first frame is sent, and the receiver expires; it
      registers again and is sent the second frame; its new loop writes, then its old one. */
  function Both(g: nat, sender: Name, fp: Name): seq<Step> {
    [TryRegister(sender), QueueUser(g, LONG), CacheSet(0)] + [TryRegister(fp), QueueUser(g, SHORT), CacheSet(0)]
  }

  function FirstFrame(n: nat, sender: Name, fp: Name): seq<Step> {
    [Handshake(sender, sender, 0), Handshake(fp, fp, 1)]
    + [Recv(n, Parsed(FrameFrom(1, sender, fp))), CacheTimer(LATER)]
  }

  function SecondFrame(g: nat, n: nat, sender: Name, fp: Name): seq<Step> {
    [TryRegister(fp), QueueUser(g, SHORT), CacheSet(LATER)]
    + [Handshake(fp, fp, 2), Recv(n, Parsed(FrameFrom(2, sender, fp)))]
    + [SendOne(n + 2), SendOne(n + 1)]
  }

  /** User object `u` as a registration left it, but for contacts and mail. */
  ghost predicate UserIs(s: Server, u: nat, fp: Name, mail: seq<SessionMessage>) {
    u < |s.users| && s.users[u].fp == fp && s.users[u].blackList == {} && s.users[u].mailbox == mail
  }

  ghost predicate Clean(c: Server, sender: Name, fp: Name) {
    && InRange(c) && c.cache.entries == map[] && c.cache.chSet == []
    && sender != Nobody && fp != Nobody && sender != fp
  }

  /** Numbers of users and sessions count on from those of the clean server `c`. */
  ghost predicate AfterBoth(c: Server, s: Server, sender: Name, fp: Name) {
    var a := |c.users|;
    && InRange(s) && |s.users| == a + 2 && UserIs(s, a, sender, []) && UserIs(s, a + 1, fp, [])
    && s.cache.entries == map[sender := CacheSpec.Entry(a, LONG), fp := CacheSpec.Entry(a + 1, SHORT)]
    && s.cache.chSet == [] && s.registering == c.registering && s.sessions == c.sessions
    && s.log.accepted == c.log.accepted && s.log.takes == c.log.takes
  }

  lemma RegisterBoth(c: Server, sender: Name, fp: Name) returns (s: Server)
    requires Clean(c, sender, fp)
    ensures Leads(c, Both(|c.registering|, sender, fp), s) && AfterBoth(c, s, sender, fp)
  {
    var g := |c.registering|;
    LeadsNowhere(c);
    var s1 := RegisterOne(c, [], c, sender, LONG, 0);
    var x := [] + [TryRegister(sender), QueueUser(g, LONG), CacheSet(0)];
    s := RegisterOne(c, x, s1, fp, SHORT, 0);
    assert x + [TryRegister(fp), QueueUser(g, SHORT), CacheSet(0)] == Both(g, sender, fp);
  }

  // ---- the first frame stays behind ----

  /** The frame with that number, as it waits in the receiver's object `to`. */
  function Waiting(c: Server, id: int, to: nat, sender: Name, fp: Name): SessionMessage {
    SessionMessage(Some(|c.users|), to, FrameFrom(id, sender, fp))
  }

  function AcceptedAs(c: Server, id: int, to: nat, sender: Name, fp: Name): Accepted {
    Accepted(|c.sessions|, |c.users|, FrameFrom(id, sender, fp), Enqueued(to))
  }

  /** The first frame waits in a mailbox whose owner is not cached any more. */
  ghost predicate AfterFirst(c: Server, s: Server, sender: Name, fp: Name) {
    var a := |c.users|;
    && InRange(s) && |s.users| == a + 2
    && UserIs(s, a, sender, []) && UserIs(s, a + 1, fp, [Waiting(c, 1, a + 1, sender, fp)])
    && s.cache.entries == map[sender := CacheSpec.Entry(a, LONG)]
    && s.cache.chSet == [] && s.registering == c.registering
    && s.sessions == c.sessions + [Session(a, sender, 0), Session(a + 1, fp, 1)]
    && s.log.accepted == c.log.accepted + [AcceptedAs(c, 1, a + 1, sender, fp)] && s.log.takes == c.log.takes
  }

  ghost predicate AfterGreeting(c: Server, s: Server, sender: Name, fp: Name) {
    var a := |c.users|;
    && s.sessions == c.sessions + [Session(a, sender, 0), Session(a + 1, fp, 1)]
    && AfterBoth(c, s.(sessions := c.sessions), sender, fp) && InRange(s)
  }

  lemma BothGreet(c: Server, steps: seq<Step>, s: Server, sender: Name, fp: Name) returns (r: Server)
    requires Clean(c, sender, fp) && AfterBoth(c, s, sender, fp) && Leads(c, steps, s)
    ensures Leads(c, steps + [Handshake(sender, sender, 0), Handshake(fp, fp, 1)], r) && AfterGreeting(c, r, sender, fp)
  {
    var x, y := Handshake(sender, sender, 0), Handshake(fp, fp, 1);
    var s1 := HandshakeStep(s, sender, sender, 0);
    r := HandshakeStep(s1, fp, fp, 1);
    Greets(s, sender, |c.users|, 0);
    Greets(s1, fp, |c.users| + 1, 1);
    LeadsOn(c, steps, s, x);
    LeadsOn(c, steps + [x], s1, y);
    assert steps + [x] + [y] == steps + [x, y];
  }

  lemma FirstIsLeft(c: Server, s: Server, r: Server, sender: Name, fp: Name)
    requires Clean(c, sender, fp) && AfterGreeting(c, s, sender, fp) && InRange(r)
    requires Delivered(s, r, |c.sessions|, |c.users|, |c.users| + 1, FrameFrom(1, sender, fp))
    ensures AfterFirst(c, r.(cache := ProcessTimer(r.cache, LATER)), sender, fp)
  {
    var a := |c.users|;
    assert Mail(r, a + 1) == Mail(s, a + 1) + [Waiting(c, 1, a + 1, sender, fp)];
    assert Mail(r, a) == Mail(s, a) + [];
    assert ProcessTimer(r.cache, LATER).entries == map[sender := CacheSpec.Entry(a, LONG)];
  }

  lemma SendFirst(c: Server, steps: seq<Step>, s: Server, sender: Name, fp: Name) returns (r: Server)
    requires Clean(c, sender, fp) && AfterGreeting(c, s, sender, fp) && Leads(c, steps, s)
    ensures Leads(c, steps + [Recv(|c.sessions|, Parsed(FrameFrom(1, sender, fp))), CacheTimer(LATER)], r)
    ensures AfterFirst(c, r, sender, fp)
  {
    var f := FrameFrom(1, sender, fp);
    var y, z := Recv(|c.sessions|, Parsed(f)), CacheTimer(LATER);
    var s2 := ReceiveFirst(c, steps, s, sender, fp);
    r := s2.(cache := ProcessTimer(s2.cache, LATER));
    FirstIsLeft(c, s, s2, sender, fp);
    LeadsOn(c, steps + [y], s2, z);
    assert steps + [y] + [z] == steps + [y, z];
  }

  lemma ReceiveFirst(c: Server, steps: seq<Step>, s: Server, sender: Name, fp: Name) returns (r: Server)
    requires Clean(c, sender, fp) && AfterGreeting(c, s, sender, fp) && Leads(c, steps, s)
    ensures Leads(c, steps + [Recv(|c.sessions|, Parsed(FrameFrom(1, sender, fp)))], r)
    ensures Delivered(s, r, |c.sessions|, |c.users|, |c.users| + 1, FrameFrom(1, sender, fp))
  {
    var f := FrameFrom(1, sender, fp);
    r := Receive(s, |c.sessions|, Parsed(f));
    Receives(s, |c.sessions|, |c.users|, |c.users| + 1, f);
    LeadsOn(c, steps, s, Recv(|c.sessions|, Parsed(f)));
  }

  // ---- the second frame overtakes it ----

  ghost predicate SessionsThree(c: Server, s: Server, sender: Name, fp: Name) {
    var a := |c.users|;
    s.sessions == c.sessions + [Session(a, sender, 0), Session(a + 1, fp, 1), Session(a + 2, fp, 2)]
  }

  ghost predicate MailsThree(c: Server, s: Server, sender: Name, fp: Name,
                             older: seq<SessionMessage>, newer: seq<SessionMessage>) {
    var a := |c.users|;
    && InRange(s) && |s.users| == a + 3 && sender in s.cache.entries
    && UserIs(s, a, sender, []) && UserIs(s, a + 1, fp, older) && UserIs(s, a + 2, fp, newer)
  }

  /** The receiver has a second user object, which is cached, and a session for each. */
  ghost predicate AfterReturn(c: Server, s: Server, sender: Name, fp: Name) {
    var a := |c.users|;
    && SessionsThree(c, s, sender, fp) && GetUser(s, fp) == Some(a + 2)
    && MailsThree(c, s, sender, fp, [Waiting(c, 1, a + 1, sender, fp)], [])
    && s.log.accepted == c.log.accepted + [AcceptedAs(c, 1, a + 1, sender, fp)] && s.log.takes == c.log.takes
  }

  /** In each of the two mailboxes one frame waits. */
  ghost predicate AfterSecond(c: Server, s: Server, sender: Name, fp: Name) {
    var a := |c.users|;
    && SessionsThree(c, s, sender, fp)
    && MailsThree(c, s, sender, fp, [Waiting(c, 1, a + 1, sender, fp)], [Waiting(c, 2, a + 2, sender, fp)])
    && s.log.accepted == c.log.accepted + [AcceptedAs(c, 1, a + 1, sender, fp), AcceptedAs(c, 2, a + 2, sender, fp)]
    && s.log.takes == c.log.takes
  }

  /** Both have been written, the second one first. */
  ghost predicate Overtaken(c: Server, s: Server, sender: Name, fp: Name) {
    var a := |c.users|;
    && InRange(s) && |s.users| == a + 3 && s.users[a + 1].fp == fp && s.users[a + 2].fp == fp
    && s.log.accepted == c.log.accepted + [AcceptedAs(c, 1, a + 1, sender, fp), AcceptedAs(c, 2, a + 2, sender, fp)]
    && s.log.takes == c.log.takes + [Take(a + 2, Waiting(c, 2, a + 2, sender, fp), true),
                                     Take(a + 1, Waiting(c, 1, a + 1, sender, fp), true)]
  }

  lemma Returns(c: Server, steps: seq<Step>, s: Server, sender: Name, fp: Name) returns (r: Server)
    requires Clean(c, sender, fp) && AfterFirst(c, s, sender, fp) && Leads(c, steps, s)
    ensures
      var again := [TryRegister(fp), QueueUser(|c.registering|, SHORT), CacheSet(LATER)];
      Leads(c, steps + again + [Handshake(fp, fp, 2)], r)
    ensures AfterReturn(c, r, sender, fp)
  {
    var again := [TryRegister(fp), QueueUser(|c.registering|, SHORT), CacheSet(LATER)];
    var s1 := RegisterOne(c, steps, s, fp, SHORT, LATER);
    r := HandshakeStep(s1, fp, fp, 2);
    Greets(s1, fp, |c.users| + 2, 2);
    LeadsOn(c, steps + again, s1, Handshake(fp, fp, 2));
  }

  lemma UserAfter(s: Server, r: Server, u: nat, fp: Name, mail: seq<SessionMessage>, more: seq<SessionMessage>)
    requires SameNames(s, r) && UserIs(s, u, fp, mail) && Mail(r, u) == mail + more
    ensures UserIs(r, u, fp, mail + more)
  {
  }

  lemma SecondIsStored(c: Server, s: Server, r: Server, sender: Name, fp: Name)
    requires Clean(c, sender, fp) && AfterReturn(c, s, sender, fp) && InRange(r)
    requires Delivered(s, r, |c.sessions|, |c.users|, |c.users| + 2, FrameFrom(2, sender, fp))
    ensures AfterSecond(c, r, sender, fp)
  {
    var a := |c.users|;
    UserAfter(s, r, a, sender, [], []);
    UserAfter(s, r, a + 1, fp, [Waiting(c, 1, a + 1, sender, fp)], []);
    UserAfter(s, r, a + 2, fp, [], [Waiting(c, 2, a + 2, sender, fp)]);
  }

  lemma SendSecond(c: Server, steps: seq<Step>, s: Server, sender: Name, fp: Name) returns (r: Server)
    requires Clean(c, sender, fp) && AfterReturn(c, s, sender, fp) && Leads(c, steps, s)
    ensures Leads(c, steps + [Recv(|c.sessions|, Parsed(FrameFrom(2, sender, fp)))], r) && AfterSecond(c, r, sender, fp)
  {
    var f := FrameFrom(2, sender, fp);
    r := Receive(s, |c.sessions|, Parsed(f));
    Receives(s, |c.sessions|, |c.users|, |c.users| + 2, f);
    SecondIsStored(c, s, r, sender, fp);
    LeadsOn(c, steps, s, Recv(|c.sessions|, Parsed(f)));
  }

  /** The new mailbox has been written, the old one not yet. */
  ghost predicate AfterNewer(c: Server, s: Server, sender: Name, fp: Name) {
    var a := |c.users|;
    && SessionsThree(c, s, sender, fp) && MailsThree(c, s, sender, fp, [Waiting(c, 1, a + 1, sender, fp)], [])
    && s.log.accepted == c.log.accepted + [AcceptedAs(c, 1, a + 1, sender, fp), AcceptedAs(c, 2, a + 2, sender, fp)]
    && s.log.takes == c.log.takes + [Take(a + 2, Waiting(c, 2, a + 2, sender, fp), true)]
  }

  lemma NewerIsWritten(c: Server, s: Server, r: Server, sender: Name, fp: Name)
    requires AfterSecond(c, s, sender, fp) && InRange(r)
    requires WrittenOut(s, r, |c.users| + 2, Waiting(c, 2, |c.users| + 2, sender, fp))
    ensures AfterNewer(c, r, sender, fp)
  {
    var a := |c.users|;
    assert Mail(r, a + 2) == [] && Mail(r, a + 1) == Mail(s, a + 1) && Mail(r, a) == Mail(s, a);
  }

  lemma WriteNewer(c: Server, steps: seq<Step>, s: Server, sender: Name, fp: Name) returns (r: Server)
    requires Clean(c, sender, fp) && AfterSecond(c, s, sender, fp) && Leads(c, steps, s)
    ensures Leads(c, steps + [SendOne(|c.sessions| + 2)], r) && AfterNewer(c, r, sender, fp)
  {
    var a, n := |c.users|, |c.sessions|;
    r := Send(s, n + 2);
    Sends(s, n + 2, a + 2, Waiting(c, 2, a + 2, sender, fp));
    NewerIsWritten(c, s, r, sender, fp);
    LeadsOn(c, steps, s, SendOne(n + 2));
  }

  lemma Overtakes(c: Server, steps: seq<Step>, s: Server, sender: Name, fp: Name) returns (r: Server)
    requires Clean(c, sender, fp) && AfterSecond(c, s, sender, fp) && Leads(c, steps, s)
    ensures Leads(c, steps + [SendOne(|c.sessions| + 2), SendOne(|c.sessions| + 1)], r) && Overtaken(c, r, sender, fp)
  {
    var a, n := |c.users|, |c.sessions|;
    var s1 := WriteNewer(c, steps, s, sender, fp);
    r := Send(s1, n + 1);
    Sends(s1, n + 1, a + 1, Waiting(c, 1, a + 1, sender, fp));
    LeadsOn(c, steps + [SendOne(n + 2)], s1, SendOne(n + 1));
    assert steps + [SendOne(n + 2)] + [SendOne(n + 1)] == steps + [SendOne(n + 2), SendOne(n + 1)];
  }

  /** All of it, from a server whose cache is empty. */
  function Overtaking(c: Server, sender: Name, fp: Name): seq<Step> {
    var g, n := |c.registering|, |c.sessions|;
    Both(g, sender, fp) + FirstFrame(n, sender, fp) + SecondFrame(g, n, sender, fp)
  }

  lemma LeadsToFirst(c: Server, sender: Name, fp: Name) returns (r: Server)
    requires Clean(c, sender, fp)
    ensures Leads(c, Both(|c.registering|, sender, fp) + FirstFrame(|c.sessions|, sender, fp), r)
    ensures AfterFirst(c, r, sender, fp)
  {
    var x := Both(|c.registering|, sender, fp);
    var y := [Handshake(sender, sender, 0), Handshake(fp, fp, 1)];
    var z := [Recv(|c.sessions|, Parsed(FrameFrom(1, sender, fp))), CacheTimer(LATER)];
    var s1 := RegisterBoth(c, sender, fp);
    var s2 := BothGreet(c, x, s1, sender, fp);
    r := SendFirst(c, x + y, s2, sender, fp);
    assert x + y + z == x + FirstFrame(|c.sessions|, sender, fp);
  }

  lemma LeadsToOvertaken(c: Server, sender: Name, fp: Name) returns (r: Server)
    requires Clean(c, sender, fp)
    ensures Leads(c, Overtaking(c, sender, fp), r) && Overtaken(c, r, sender, fp)
  {
    var g, n := |c.registering|, |c.sessions|;
    var s := LeadsToFirst(c, sender, fp);
    r := FirstIsOvertaken(c, Both(g, sender, fp) + FirstFrame(n, sender, fp), s, sender, fp);
  }

  lemma FirstIsOvertaken(c: Server, steps: seq<Step>, s: Server, sender: Name, fp: Name) returns (r: Server)
    requires Clean(c, sender, fp) && AfterFirst(c, s, sender, fp) && Leads(c, steps, s)
    ensures Leads(c, steps + SecondFrame(|c.registering|, |c.sessions|, sender, fp), r) && Overtaken(c, r, sender, fp)
  {
    var g, n := |c.registering|, |c.sessions|;
    var x := steps + [TryRegister(fp), QueueUser(g, SHORT), CacheSet(LATER)] + [Handshake(fp, fp, 2)];
    var y := x + [Recv(n, Parsed(FrameFrom(2, sender, fp)))];
    var s1 := Returns(c, steps, s, sender, fp);
    var s2 := SendSecond(c, x, s1, sender, fp);
    r := Overtakes(c, y, s2, sender, fp);
    assert y + [SendOne(n + 2), SendOne(n + 1)] == steps + SecondFrame(g, n, sender, fp);
  }

  // ---- the order is lost ----

  /** Nothing of this sender was accepted or taken out of a mailbox. */
  ghost predicate Unheard(s: Server, sender: Name) {
    && (forall i | 0 <= i < |s.log.accepted| :: s.log.accepted[i].frame.sender != sender)
    && (forall i | 0 <= i < |s.log.takes| :: s.log.takes[i].msg.msg.sender != sender)
  }

  lemma {:induction false} NothingAccepted(accepted: seq<Accepted>, sender: Name, fp: Name)
    requires forall i | 0 <= i < |accepted| :: accepted[i].frame.sender != sender
    ensures AcceptedFrom(accepted, sender, fp) == []
  {
    if accepted != [] {
      NothingAccepted(accepted[..|accepted| - 1], sender, fp);
    }
  }

  lemma {:induction false} NothingWritten(takes: seq<Take>, users: seq<User>, sender: Name, fp: Name)
    requires forall i | 0 <= i < |takes| :: takes[i].msg.msg.sender != sender
    ensures WrittenBelow(takes, users, |users|, sender, fp) == []
  {
    if takes != [] {
      NothingWritten(takes[..|takes| - 1], users, sender, fp);
    }
  }

  lemma AcceptedTwo(accepted: seq<Accepted>, x: Accepted, y: Accepted, sender: Name, fp: Name)
    requires AcceptedFrom(accepted, sender, fp) == []
    requires x.frame.sender == sender == y.frame.sender && x.frame.receiver == fp == y.frame.receiver
    ensures AcceptedFrom(accepted + [x, y], sender, fp) == [x.frame, y.frame]
  {
    AcceptedFromSnoc(accepted, x, sender, fp);
    AcceptedFromSnoc(accepted + [x], y, sender, fp);
    assert accepted + [x] + [y] == accepted + [x, y];
  }

  lemma WrittenOne(takes: seq<Take>, x: Take, users: seq<User>, sender: Name, fp: Name)
    requires x.written && x.from < |users| && users[x.from].fp == fp && x.msg.msg.sender == sender
    ensures WrittenBelow(takes + [x], users, |users|, sender, fp)
         == WrittenBelow(takes, users, |users|, sender, fp) + [x.msg.msg]
  {
    assert (takes + [x])[..|takes|] == takes;
  }

  lemma WrittenTwo(takes: seq<Take>, x: Take, y: Take, users: seq<User>, sender: Name, fp: Name)
    requires WrittenBelow(takes, users, |users|, sender, fp) == [] && x.written && y.written
    requires x.from < |users| && y.from < |users| && users[x.from].fp == fp == users[y.from].fp
    requires x.msg.msg.sender == sender == y.msg.msg.sender
    ensures WrittenBelow(takes + [x, y], users, |users|, sender, fp) == [x.msg.msg, y.msg.msg]
  {
    WrittenOne(takes, x, users, sender, fp);
    WrittenOne(takes + [x], y, users, sender, fp);
    assert takes + [x] + [y] == takes + [x, y];
  }

  lemma OvertakenOrder(c: Server, s: Server, sender: Name, fp: Name)
    requires Overtaken(c, s, sender, fp) && Unheard(c, sender)
    ensures AcceptedFrom(s.log.accepted, sender, fp) == [FrameFrom(1, sender, fp), FrameFrom(2, sender, fp)]
    ensures WrittenTo(s, sender, fp) == [FrameFrom(2, sender, fp), FrameFrom(1, sender, fp)]
    ensures !OrderKept(s, sender, fp)
  {
    var a := |c.users|;
    NothingAccepted(c.log.accepted, sender, fp);
    NothingWritten(c.log.takes, s.users, sender, fp);
    AcceptedTwo(c.log.accepted, AcceptedAs(c, 1, a + 1, sender, fp), AcceptedAs(c, 2, a + 2, sender, fp), sender, fp);
    WrittenTwo(c.log.takes, Take(a + 2, Waiting(c, 2, a + 2, sender, fp), true),
               Take(a + 1, Waiting(c, 1, a + 1, sender, fp), true), s.users, sender, fp);
    NotReversed(FrameFrom(1, sender, fp), FrameFrom(2, sender, fp));
  }

  lemma NotReversed<T>(x: T, y: T)
    requires x != y
    ensures !Subsequence([y, x], [x, y])
  {
    assert [x, y][..1] == [x] && [y, x][..1] == [y] && [x][..0] == [];
    assert Subsequence([y, x], [x, y]) == Subsequence([y, x], [x]) == Subsequence([y], []);
  }

  /** Such a run, from the beginning. */
  function OutOfOrder(ann: Name, bob: Name): seq<Step> {
    [TryRegister(ann), QueueUser(0, LONG), CacheSet(0), TryRegister(bob), QueueUser(0, SHORT), CacheSet(0),
     Handshake(ann, ann, 0), Handshake(bob, bob, 1), Recv(0, Parsed(FrameFrom(1, ann, bob))), CacheTimer(LATER),
     TryRegister(bob), QueueUser(0, SHORT), CacheSet(LATER), Handshake(bob, bob, 2),
     Recv(0, Parsed(FrameFrom(2, ann, bob))), SendOne(2), SendOne(1)]
  }

  lemma OutOfOrderRun(ann: Name, bob: Name)
    requires ann != Nobody && bob != Nobody && ann != bob
    ensures
      var s := Run(OutOfOrder(ann, bob));
      && AcceptedFrom(s.log.accepted, ann, bob) == [FrameFrom(1, ann, bob), FrameFrom(2, ann, bob)]
      && WrittenTo(s, ann, bob) == [FrameFrom(2, ann, bob), FrameFrom(1, ann, bob)]
  {
    OutOfOrderLeads(ann, bob, OutOfOrder(ann, bob));
  }

  lemma OutOfOrderLeads(ann: Name, bob: Name, steps: seq<Step>)
    requires ann != Nobody && bob != Nobody && ann != bob && steps == Overtaking(Initial(), ann, bob)
    ensures
      var s := Run(steps);
      && AcceptedFrom(s.log.accepted, ann, bob) == [FrameFrom(1, ann, bob), FrameFrom(2, ann, bob)]
      && WrittenTo(s, ann, bob) == [FrameFrom(2, ann, bob), FrameFrom(1, ann, bob)]
  {
    var s := LeadsToOvertaken(Initial(), ann, bob);
    assert [] + steps == steps;
    LeadsRun([], steps, s);
    OvertakenOrder(Initial(), s, ann, bob);
  }
}
