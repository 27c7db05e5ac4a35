/**
  The relay seen by a receiver's fingerprint. A fingerprint that expires and is registered
  again has a second user object with a mailbox of its own. Over all of them, every accepted
  frame is still written at most once; but the order is kept only as long as there is one.
*/
module RelayOrder {
  import opened Basics
  import opened CacheSpec
  import opened Frames
  import opened Relay
  import opened RelayLaws

  // ---- at most once, whatever is registered ----

  /** The frames from one sender written to the sockets of the first `n` user objects, as
      far as they have that fingerprint, oldest first. */
  function WrittenBelow(takes: seq<Take>, users: seq<User>, n: nat, sender: Name, fp: Name): seq<Frame>
    requires n <= |users|
  {
    if takes == [] then []
    else
      var rest, t := WrittenBelow(takes[..|takes| - 1], users, n, sender, fp), takes[|takes| - 1];
      if t.from < n && users[t.from].fp == fp && t.written && t.msg.msg.sender == sender
      then rest + [t.msg.msg]
      else rest
  }

  /** The frames from one sender written to any socket of a receiver, oldest first. */
  function WrittenTo(s: Server, sender: Name, fp: Name): seq<Frame> {
    WrittenBelow(s.log.takes, s.users, |s.users|, sender, fp)
  }

  /** The same for what was stored in the mailboxes. */
  function StoredBelow(posts: seq<Post>, users: seq<User>, n: nat, sender: Name, fp: Name): seq<Frame>
    requires n <= |users|
  {
    if posts == [] then []
    else
      var rest, p := StoredBelow(posts[..|posts| - 1], users, n, sender, fp), posts[|posts| - 1];
      if p.to < n && users[p.to].fp == fp && p.stored && p.msg.msg.sender == sender then rest + [p.msg.msg] else rest
  }

  /** One more entry goes to at most one of two parts. */
  lemma SplitOneMore<T>(a: seq<T>, b: seq<T>, c: seq<T>, x: T, inB: bool, inC: bool)
    requires multiset(a) == multiset(b) + multiset(c) && !(inB && inC)
    ensures multiset(if inB || inC then a + [x] else a)
         == multiset(if inB then b + [x] else b) + multiset(if inC then c + [x] else c)
  {
  }

  lemma {:induction false} WrittenOneMore(takes: seq<Take>, users: seq<User>, n: nat, sender: Name, fp: Name)
    requires n < |users|
    ensures multiset(WrittenBelow(takes, users, n + 1, sender, fp)) ==
      multiset(WrittenBelow(takes, users, n, sender, fp)) +
      multiset(if users[n].fp == fp then WrittenFrom(takes, sender, n) else [])
  {
    if takes != [] {
      var takes', t := takes[..|takes| - 1], takes[|takes| - 1];
      var written := t.written && t.msg.msg.sender == sender;
      var its := if users[n].fp == fp then WrittenFrom(takes', sender, n) else [];
      WrittenOneMore(takes', users, n, sender, fp);
      SplitOneMore(WrittenBelow(takes', users, n + 1, sender, fp), WrittenBelow(takes', users, n, sender, fp), its,
                   t.msg.msg, written && t.from < n && users[t.from].fp == fp,
                   written && t.from == n && users[n].fp == fp);
    }
  }

  lemma {:induction false} StoredOneMore(posts: seq<Post>, users: seq<User>, n: nat, sender: Name, fp: Name)
    requires n < |users|
    ensures multiset(StoredBelow(posts, users, n + 1, sender, fp)) ==
      multiset(StoredBelow(posts, users, n, sender, fp)) +
      multiset(if users[n].fp == fp then FromSender(Stored(posts, n), sender) else [])
  {
    if posts != [] {
      var posts', p := posts[..|posts| - 1], posts[|posts| - 1];
      var stored := p.stored && p.msg.msg.sender == sender;
      var its := if users[n].fp == fp then FromSender(Stored(posts', n), sender) else [];
      StoredOneMore(posts', users, n, sender, fp);
      FromSenderSnoc(Stored(posts', n), p.msg, sender);
      SplitOneMore(StoredBelow(posts', users, n + 1, sender, fp), StoredBelow(posts', users, n, sender, fp), its,
                   p.msg.msg, stored && p.to < n && users[p.to].fp == fp,
                   stored && p.to == n && users[n].fp == fp);
    }
  }

  lemma FromSenderSnoc(ms: seq<SessionMessage>, m: SessionMessage, sender: Name)
    ensures FromSender(ms + [m], sender) == FromSender(ms, sender) + if m.msg.sender == sender then [m.msg] else []
  {
    assert (ms + [m])[..|ms|] == ms;
  }

  /** One mailbox writes no more than was stored in it. */
  lemma WrittenOfStored(s: Server, u: nat, sender: Name)
    requires MailHistory(s)
    ensures Subsequence(WrittenFrom(s.log.takes, sender, u), FromSender(Stored(s.log.posts, u), sender))
  {
    var taken, mail := Taken(s.log.takes, u), Mail(s, u);
    assert Stored(s.log.posts, u) == taken + mail;
    FromSenderConcat(taken, mail, sender);
    WrittenOfTaken(s.log.takes, sender, u);
    SubsequencePrefix(FromSender(taken, sender), FromSender(mail, sender));
    SubsequenceTransitive(WrittenFrom(s.log.takes, sender, u), FromSender(taken, sender),
                          FromSender(taken + mail, sender));
  }

  /** The first `n` user objects write no frame more often than it was stored with them. */
  ghost predicate NoMoreWritten(s: Server, n: nat, sender: Name, fp: Name)
    requires n <= |s.users|
  {
    multiset(WrittenBelow(s.log.takes, s.users, n, sender, fp))
    <= multiset(StoredBelow(s.log.posts, s.users, n, sender, fp))
  }

  lemma OneMoreObject(s: Server, n: nat, sender: Name, fp: Name)
    requires MailHistory(s) && n < |s.users| && NoMoreWritten(s, n, sender, fp)
    ensures NoMoreWritten(s, n + 1, sender, fp)
  {
    WrittenOneMore(s.log.takes, s.users, n, sender, fp);
    StoredOneMore(s.log.posts, s.users, n, sender, fp);
    WrittenOfStored(s, n, sender);
    SubsequenceMultiset(WrittenFrom(s.log.takes, sender, n), FromSender(Stored(s.log.posts, n), sender));
  }

  lemma NoneWrittenYet(s: Server, sender: Name, fp: Name)
    ensures NoMoreWritten(s, 0, sender, fp)
  {
    NothingBelowZero(s.log.takes, s.users, sender, fp);
  }

  /** Nor do all of them together. */
  lemma {:induction false} AllWrittenOfStored(s: Server, n: nat, sender: Name, fp: Name)
    requires MailHistory(s) && n <= |s.users|
    ensures NoMoreWritten(s, n, sender, fp)
  {
    if n == 0 {
      NoneWrittenYet(s, sender, fp);
    } else {
      var k := n - 1;
      AllWrittenOfStored(s, k, sender, fp);
      OneMoreObject(s, k, sender, fp);
      assert k + 1 == n;
    }
  }

  lemma {:induction false} NothingBelowZero(takes: seq<Take>, users: seq<User>, sender: Name, fp: Name)
    ensures WrittenBelow(takes, users, 0, sender, fp) == []
  {
    if takes != [] {
      NothingBelowZero(takes[..|takes| - 1], users, sender, fp);
    }
  }

  /** The attempts that stored a frame of one sender for one receiver. */
  function StoredFrames(attempts: seq<Attempt>, sender: Name, fp: Name): seq<Frame> {
    if attempts == [] then []
    else
      var rest, a := StoredFrames(attempts[..|attempts| - 1], sender, fp), attempts[|attempts| - 1];
      if a.stored && a.frame.sender == sender && a.frame.receiver == fp then rest + [a.frame] else rest
  }

  lemma StoredFramesSnoc(attempts: seq<Attempt>, a: Attempt, sender: Name, fp: Name)
    ensures StoredFrames(attempts + [a], sender, fp) ==
      StoredFrames(attempts, sender, fp) +
      if a.stored && a.frame.sender == sender && a.frame.receiver == fp then [a.frame] else []
  {
    assert (attempts + [a])[..|attempts|] == attempts;
  }

  /** In authentic posts the receiver's object and the receiver named agree. */
  lemma {:induction false} StoredByName(s: Server, posts: seq<Post>, sender: Name, fp: Name)
    requires sender != Nobody && forall i | 0 <= i < |posts| :: Authentic(s, posts[i].to, posts[i].msg)
    ensures StoredBelow(posts, s.users, |s.users|, sender, fp) == StoredFrames(DataPosts(posts), sender, fp)
  {
    if posts != [] {
      var posts', p := posts[..|posts| - 1], posts[|posts| - 1];
      StoredByName(s, posts', sender, fp);
      assert Authentic(s, p.to, p.msg);
      if p.msg.sender.Some? {
        StoredFramesSnoc(DataPosts(posts'), Attempt(p.msg.sender.value, p.to, p.msg.msg, p.stored), sender, fp);
      }
    }
  }

  lemma {:induction false} StoredOfAccepted(accepted: seq<Accepted>, sender: Name, fp: Name)
    ensures Subsequence(StoredFrames(KnownReceiver(accepted), sender, fp), AcceptedFrom(accepted, sender, fp))
  {
    if accepted != [] {
      var accepted', a := accepted[..|accepted| - 1], accepted[|accepted| - 1];
      var known, of := StoredFrames(KnownReceiver(accepted'), sender, fp), AcceptedFrom(accepted', sender, fp);
      var named := a.frame.sender == sender && a.frame.receiver == fp;
      StoredOfAccepted(accepted', sender, fp);
      SubsequenceMaybe(known, of, a.frame, named && a.outcome.Enqueued?, named);
      KnownSnoc(accepted, sender, fp);
      assert AcceptedFrom(accepted, sender, fp) == of + if named then [a.frame] else [];
    }
  }

  lemma KnownSnoc(accepted: seq<Accepted>, sender: Name, fp: Name)
    requires accepted != []
    ensures
      var a := accepted[|accepted| - 1];
      StoredFrames(KnownReceiver(accepted), sender, fp) ==
      StoredFrames(KnownReceiver(accepted[..|accepted| - 1]), sender, fp) +
      if a.frame.sender == sender && a.frame.receiver == fp && a.outcome.Enqueued? then [a.frame] else []
  {
    var a, known := accepted[|accepted| - 1], KnownReceiver(accepted[..|accepted| - 1]);
    if !a.outcome.Unknown? {
      StoredFramesSnoc(known, Attempt(a.user, a.outcome.to, a.frame, a.outcome.Enqueued?), sender, fp);
    }
  }

  /** Every run, however often a receiver is registered again: the frames from one sender
      stored for a receiver, in all its mailboxes, are in the order of acceptance, and
      none is written more often than it was accepted. */
  lemma AtMostOnceEverywhere(steps: seq<Step>, sender: Name, fp: Name)
    requires sender != Nobody
    ensures
      var s := Run(steps);
      && Subsequence(StoredBelow(s.log.posts, s.users, |s.users|, sender, fp), AcceptedFrom(s.log.accepted, sender, fp))
      && multiset(WrittenTo(s, sender, fp)) <= multiset(AcceptedFrom(s.log.accepted, sender, fp))
  {
    var s := Run(steps);
    OutcomesAccounted(steps);
    MailboxesAreBoundedQueues(steps);
    StoredByName(s, s.log.posts, sender, fp);
    StoredOfAccepted(s.log.accepted, sender, fp);
    AllWrittenOfStored(s, |s.users|, sender, fp);
    SubsequenceMultiset(StoredFrames(DataPosts(s.log.posts), sender, fp), AcceptedFrom(s.log.accepted, sender, fp));
  }

  // ---- in order, while there is one user object ----

  /** No second user object of this fingerprint was ever made. */
  ghost predicate OneObject(s: Server, fp: Name) {
    forall u, v | 0 <= u < |s.users| && 0 <= v < |s.users| && s.users[u].fp == fp && s.users[v].fp == fp :: u == v
  }

  ghost predicate OrderKept(s: Server, sender: Name, fp: Name) {
    Subsequence(WrittenTo(s, sender, fp), AcceptedFrom(s.log.accepted, sender, fp))
  }

  lemma {:induction false} WrittenByOne(takes: seq<Take>, users: seq<User>, u: nat, sender: Name, fp: Name)
    requires u < |users| && users[u].fp == fp
    requires forall v | 0 <= v < |users| && users[v].fp == fp :: v == u
    ensures WrittenBelow(takes, users, |users|, sender, fp) == WrittenFrom(takes, sender, u)
  {
    if takes != [] {
      WrittenByOne(takes[..|takes| - 1], users, u, sender, fp);
    }
  }

  lemma {:induction false} WrittenByNone(takes: seq<Take>, users: seq<User>, sender: Name, fp: Name)
    requires forall v | 0 <= v < |users| :: users[v].fp != fp
    ensures WrittenBelow(takes, users, |users|, sender, fp) == []
  {
    if takes != [] {
      WrittenByNone(takes[..|takes| - 1], users, sender, fp);
    }
  }

  lemma OneObjectKeepsOrder(steps: seq<Step>, sender: Name, fp: Name)
    requires sender != Nobody && OneObject(Run(steps), fp)
    ensures OrderKept(Run(steps), sender, fp)
  {
    var s := Run(steps);
    if u: nat :| u < |s.users| && s.users[u].fp == fp {
      WrittenByOne(s.log.takes, s.users, u, sender, fp);
      RelayInOrderAtMostOnce(steps, u, sender);
    } else {
      WrittenByNone(s.log.takes, s.users, sender, fp);
    }
  }
}
