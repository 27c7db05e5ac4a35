/**
  The server's objects: users, whose mailboxes hold pointers back to users, and the
  sessions that post and read. Every method is proved to take the step `Relay` gives it,
  also when a user writes to itself. Mutable state lives in the user objects; `number`
  is an object's place in the order of creation.
*/
module RelayHeap {
  import opened Basics
  import opened Frames
  import R = Relay

  datatype SessionMessage = SessionMessage(sender: User?, receiver: User, msg: Frame)

  ghost function View(m: SessionMessage): R.SessionMessage {
    R.SessionMessage(if m.sender == null then None else Some(m.sender.number), m.receiver.number, m.msg)
  }

  /** What `Get` on the users cache answers; the cache itself is `ObjectCache`. */
  class Registry {
    var cached: map<Name, User>

    constructor ()
      ensures cached == map[]
    {
      cached := map[];
    }

    function GetUser(fp: Name): (r: User?)
      reads this
      ensures if fp in cached then r == cached[fp] else r == null
    {
      if fp in cached then cached[fp] else null
    }

    /** Registration of a key that is not cached makes a user; it is cached later. */
    method TryRegister(fp: Name, ghost users: seq<User>, ghost s: R.Server) returns (usr: User?)
      requires Shows(this, users, s) && R.InRange(s)
      ensures usr == null <==> fp == Nobody || fp in cached
      ensures usr != null ==> fresh(usr) && usr.number == |users| && usr.tmcs == this
      ensures Shows(this, if usr == null then users else users + [usr], R.TryRegisterStep(s, fp))
    {
      if fp == Nobody || GetUser(fp) != null {
        return null;
      }
      usr := new User(fp, this, |users|);
    }
  }

  class User {
    ghost const number: nat
    const fingerPrint: Name
    const tmcs: Registry
    var contacts: map<Name, Name>
    var blackList: set<Name>
    var contactLimit: nat
    var chPost: seq<SessionMessage>

    constructor (fp: Name, tmcs: Registry, ghost number: nat)
      ensures this.number == number && this.tmcs == tmcs && Is(R.NewUser(fp))
    {
      this.number := number;
      this.fingerPrint := fp;
      this.tmcs := tmcs;
      contacts := map[];
      blackList := {};
      contactLimit := R.CONTACT_LIMIT;
      chPost := [];
    }

    ghost predicate Is(u: R.User)
      reads this
    {
      && fingerPrint == u.fp && contacts == u.contacts && blackList == u.blackList && contactLimit == u.contactLimit
      && Mails(chPost, u.mailbox)
    }

    /** The send to the mailbox does not block: without a free slot the message is lost. */
    method Post(msg: SessionMessage, ghost users: seq<User>, ghost s: R.Server) returns (ok: bool)
      requires Shows(tmcs, users, s) && this in users
      modifies this`chPost
      ensures ok <==> |old(chPost)| < R.MAILBOX_SLOTS
      ensures chPost == if ok then old(chPost) + [msg] else old(chPost)
      ensures Shows(tmcs, users, R.PostTo(s, number, View(msg)))
    {
      ok := |chPost| < R.MAILBOX_SLOTS;
      if ok {
        chPost := chPost + [msg];
      }
      assert Is(R.PostTo(s, number, View(msg)).users[number]);
    }

    /** The contact is entered, whatever the limit. */
    method NoteContact(fp: Name, ghost users: seq<User>, ghost s: R.Server)
      requires Shows(tmcs, users, s) && this in users
      modifies this`contacts
      ensures contacts == old(contacts)[fp := fp]
      ensures Shows(tmcs, users, R.NoteContact(s, number, fp))
    {
      contacts := contacts[fp := fp];
      assert Is(R.NoteContact(s, number, fp).users[number]);
    }

    method AddContact(contact: User, ghost users: seq<User>, ghost s: R.Server) returns (ok: bool)
      requires Shows(tmcs, users, s) && this in users
      modifies this`contacts
      ensures ok <==> |old(contacts)| < contactLimit
      ensures contacts == if ok then old(contacts)[contact.fingerPrint := contact.fingerPrint] else old(contacts)
      ensures Shows(tmcs, users, if ok then R.NoteContact(s, number, contact.fingerPrint) else s)
    {
      if |contacts| >= contactLimit {
        return false;
      }
      NoteContact(contact.fingerPrint, users, s);
      ok := true;
    }

    /** The oldest message of the mailbox. */
    method TakePost(ghost users: seq<User>, ghost s: R.Server, ghost i: nat) returns (m: SessionMessage)
      requires R.InRange(s) && Shows(tmcs, users, s) && i < |s.sessions| && users[s.sessions[i].user] == this
      requires chPost != []
      modifies this`chPost
      ensures [m] + chPost == old(chPost)
      ensures Shows(tmcs, users, R.Send(s, i))
    {
      m := chPost[0];
      chPost := chPost[1..];
      assert Is(R.Send(s, i).users[number]);
    }

    method CheckContact(key: Name, ghost users: seq<User>, ghost s: R.Server) returns (ok: bool)
      requires Shows(tmcs, users, s) && this in users
      ensures ok <==> R.CheckContact(s, number, key)
    {
      if key in blackList {
        return false;
      }
      ok := tmcs.GetUser(key) != null;
    }
  }

  ghost predicate Mails(ms: seq<SessionMessage>, vs: seq<R.SessionMessage>) {
    |ms| == |vs| && forall j | 0 <= j < |ms| :: View(ms[j]) == vs[j]
  }

  /** The objects show the abstract server: user by user, mailbox by mailbox, and the cache
      points to the right objects. */
  ghost predicate Shows(reg: Registry, users: seq<User>, s: R.Server)
    reads reg, users
  {
    && |users| == |s.users|
    && (forall u | 0 <= u < |users| :: users[u].number == u && users[u].tmcs == reg && users[u].Is(s.users[u]))
    && (forall fp :: fp in reg.cached <==> fp in s.cache.entries)
    && (forall fp | fp in reg.cached :: s.cache.entries[fp].value < |users|
          && reg.cached[fp] == users[s.cache.entries[fp].value])
  }

  /** Acceptance is history: no object shows it. */
  lemma AcceptShows(reg: Registry, users: seq<User>, s: R.Server, i: nat, msg: Frame)
    requires R.InRange(s) && Shows(reg, users, s) && i < |s.sessions|
    ensures Shows(reg, users, R.Accept(s, i, msg))
  {
  }

  /** The outcome is known only after the attempt to post. */
  lemma DispatchFound(s: R.Server, i: nat, msg: Frame)
    requires R.InRange(s) && i < |s.sessions| && R.GetUser(s, msg.receiver).Some?
    ensures
      var user, to := s.sessions[i].user, R.GetUser(s, msg.receiver).value;
      var noted := R.NoteContact(R.Accept(s, i, msg), user, msg.receiver);
      var posted := R.PostTo(noted, to, R.SessionMessage(Some(user), to, msg));
      R.Dispatch(s, i, msg) ==
        if |noted.users[to].mailbox| < R.MAILBOX_SLOTS then posted
        else R.PostError(posted, user, MessageNotDelivered, msg.id)
  {
  }

  class Session {
    const user: User
    var socket: seq<Frame>

    constructor (user: User)
      ensures this.user == user && socket == []
    {
      this.user := user;
      socket := [];
    }

    /** This is session `i` of the abstract server. */
    ghost predicate Is(users: seq<User>, s: R.Server, i: nat)
      reads user.tmcs, users
    {
      && R.InRange(s) && Shows(user.tmcs, users, s)
      && i < |s.sessions| && users[s.sessions[i].user] == user
    }

    method PostError(code: ErrorCode, about: int, ghost users: seq<User>, ghost s: R.Server)
      requires Shows(user.tmcs, users, s) && user in users
      modifies user`chPost
      ensures Shows(user.tmcs, users, R.PostError(s, user.number, code, about))
    {
      var msg := Frame(0, Nobody, user.fingerPrint, Error(code, about));
      var _ := user.Post(SessionMessage(null, user, msg), users, s);
    }

    method Dispacth(msg: Frame, ghost users: seq<User>, ghost s: R.Server, ghost i: nat)
      requires Is(users, s, i)
      modifies users
      ensures Shows(user.tmcs, users, R.Dispatch(s, i, msg))
    {
      ghost var accepted := R.Accept(s, i, msg);
      AcceptShows(user.tmcs, users, s, i, msg);
      var receiver := user.tmcs.GetUser(msg.receiver);
      if receiver == null {
        PostError(ReceiverUnknown, msg.id, users, accepted);
        return;
      }
      DispatchFound(s, i, msg);
      user.NoteContact(msg.receiver, users, accepted);
      ghost var noted := R.NoteContact(accepted, user.number, msg.receiver);
      PostOrReport(receiver, SessionMessage(user, receiver, msg), users, noted);
    }

    /** A message that finds no free slot is reported to its sender, who may be the receiver. */
    method PostOrReport(receiver: User, m: SessionMessage, ghost users: seq<User>, ghost s: R.Server)
      requires receiver.tmcs == user.tmcs && Shows(user.tmcs, users, s) && user in users && receiver in users
      modifies receiver`chPost, user`chPost
      ensures
        var posted := R.PostTo(s, receiver.number, View(m));
        Shows(user.tmcs, users,
              if |old(receiver.chPost)| < R.MAILBOX_SLOTS then posted
              else R.PostError(posted, user.number, MessageNotDelivered, m.msg.id))
    {
      var ok := receiver.Post(m, users, s);
      if !ok {
        PostError(MessageNotDelivered, m.msg.id, users, R.PostTo(s, receiver.number, View(m)));
      }
    }

    /** One round of the receive loop, for a binary message that has been read. */
    method Receive(input: R.Input, ghost users: seq<User>, ghost s: R.Server, ghost i: nat)
      requires Is(users, s, i)
      modifies users
      ensures Shows(user.tmcs, users, R.Receive(s, i, input))
    {
      match input
      case Malformed(id) => PostError(InvalidMessage, id, users, s);
      case Parsed(msg) =>
        if msg.sender != user.fingerPrint {
          PostError(VerifyError, msg.id, users, s);
        } else {
          Dispacth(msg, users, s, i);
        }
    }

    /** One round of the send loop; it waits while the mailbox is empty. */
    method SendOne(ghost users: seq<User>, ghost s: R.Server, ghost i: nat)
      requires Is(users, s, i)
      modifies this`socket, users
      ensures Shows(user.tmcs, users, R.Send(s, i))
      ensures socket == old(socket) + match R.Written(s, i) case Some(f) => [f] case None => []
    {
      if user.chPost == [] {
        return;
      }
      var m := user.TakePost(users, s, i);
      var ok := user.CheckContact(m.msg.sender, users, R.Send(s, i));
      if ok {
        socket := socket + [m.msg];
      }
    }
  }

  /** The contacts part of registration by invitation: both ways, or the user is given up. */
  method Introduce(usr: User, contact: User, ghost users: seq<User>, ghost s: R.Server, ghost k: nat) returns (ok: bool)
    requires R.InRange(s) && Shows(contact.tmcs, users, s) && contact in users
    requires k < |s.registering| && users[s.registering[k]] == usr
    modifies usr`contacts, contact`contacts
    ensures Shows(contact.tmcs, users, R.IntroduceStep(s, k, contact.number))
    ensures ok <==> R.IntroduceStep(s, k, contact.number).registering == s.registering
  {
    ok := contact.AddContact(usr, users, s);
    if ok {
      ok := usr.AddContact(contact, users, R.NoteContact(s, contact.number, usr.fingerPrint));
    }
  }
}
