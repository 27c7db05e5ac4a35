/**
  Laws of one client over every run of its own, with arbitrary frames arriving: archived
  messages sit at their ids, contacts at their fingerprints, and each known sender's
  messages go to one fixed session, in order.
*/
module ClientLaws {
  import opened Basics
  import opened Frames
  import opened ChatClient

  // ---- what every step keeps ----

  ghost predicate ContactsKeyed(c: Client) {
    forall fp | fp in c.contacts :: c.contacts[fp].fp == fp
  }

  /** The message archived at position i carries the id i. */
  ghost predicate ArchiveIndexed(archive: seq<Option<Archived>>) {
    && archive != [] && archive[0].None?
    && (forall i | 0 < i < |archive| :: archive[i].Some? && archive[i].value.msgId == i)
  }

  /** Sessions are append-only: members are fixed, messages are only added. */
  ghost predicate SessionsExtend(a: seq<ChatSession>, b: seq<ChatSession>) {
    && |a| <= |b|
    && (forall i | 0 <= i < |a| :: b[i].users == a[i].users && a[i].messages <= b[i].messages)
  }

  /** The archive is append-only; of an archived message only the state changes. */
  ghost predicate ArchiveExtends(a: seq<Option<Archived>>, b: seq<Option<Archived>>) {
    && |a| <= |b|
    && (forall i | 0 <= i < |a| :: a[i].Some? <==> b[i].Some?)
    && (forall i | 0 <= i < |a| && a[i].Some? :: b[i].value.(state := None) == a[i].value.(state := None))
  }

  ghost predicate Grows(c: Client, d: Client) {
    && d.me == c.me && d.asksApplication == c.asksApplication
    && c.contacts.Keys <= d.contacts.Keys
    && SessionsExtend(c.sessions, d.sessions)
    && ArchiveExtends(c.archive, d.archive)
  }

  ghost predicate Sound(c: Client) {
    ContactsKeyed(c) && ArchiveIndexed(c.archive)
  }

  lemma GrowsTransitive(c: Client, d: Client, e: Client)
    requires Grows(c, d) && Grows(d, e)
    ensures Grows(c, e)
  {
  }

  lemma {:induction false} StartSendsGrow(c: Client, recipients: seq<Name>, text: nat)
    requires Sound(c)
    ensures Grows(c, StartSends(c, recipients, text)) && Sound(StartSends(c, recipients, text))
    decreases |recipients|
  {
    if recipients != [] {
      var d := StartSend(c, recipients[0], text, Chat);
      StartSendsGrow(d, recipients[1..], text);
      GrowsTransitive(c, d, StartSends(d, recipients[1..], text));
    }
  }

  lemma DeliverGrows(c: Client, usr: User, m: ChatMessage)
    requires Sound(c)
    ensures Grows(c, Deliver(c, usr, m)) && Sound(Deliver(c, usr, m))
  {
  }

  lemma {:induction false} DeliverAllGrows(c: Client, usr: User, ms: seq<ChatMessage>)
    requires Sound(c)
    ensures Grows(c, DeliverAll(c, usr, ms)) && Sound(DeliverAll(c, usr, ms))
    decreases |ms|
  {
    if ms != [] {
      var d := Deliver(c, usr, ms[0]);
      DeliverGrows(c, usr, ms[0]);
      DeliverAllGrows(d, usr, ms[1..]);
      GrowsTransitive(c, d, DeliverAll(d, usr, ms[1..]));
    }
  }

  lemma ApplyReceiptGrows(c: Client, r: Receipt)
    requires Sound(c)
    ensures Grows(c, ApplyReceipt(c, r)) && Sound(ApplyReceipt(c, r))
  {
  }

  lemma {:induction false} ApplyReceiptsGrow(c: Client, rs: seq<Receipt>)
    requires Sound(c)
    ensures Grows(c, ApplyReceipts(c, rs)) && Sound(ApplyReceipts(c, rs))
    decreases |rs|
  {
    if rs != [] {
      var d := ApplyReceipt(c, rs[0]);
      ApplyReceiptGrows(c, rs[0]);
      ApplyReceiptsGrow(d, rs[1..]);
      GrowsTransitive(c, d, ApplyReceipts(d, rs[1..]));
    }
  }

  lemma HandleGrows(c: Client, frame: Frame)
    requires Sound(c)
    ensures Grows(c, Handle(c, frame)) && Sound(Handle(c, frame))
  {
    match frame.body
    case MessagePack(entries) =>
      if frame.sender in c.contacts {
        var ms := Incoming(frame.sender, entries);
        var d := SendPack(c, GenReceipt(ms, Received), frame.sender);
        DeliverAllGrows(d, c.contacts[frame.sender], ms);
        GrowsTransitive(c, d, DeliverAll(d, c.contacts[frame.sender], ms));
      }
    case ReceiptPack(receipts) => ApplyReceiptsGrow(c, receipts);
    case _ =>
  }

  lemma ResumeGrows(c: Client, k: nat, how: Resume)
    requires Sound(c)
    ensures Grows(c, ResumeTask(c, k, how).client) && Sound(ResumeTask(c, k, how).client)
  {
    if k < |c.tasks| {
      var d := Drop(c, k);
      match c.tasks[k]
      case SendTimer(recipients, text) => StartSendsGrow(d, recipients, text);
      case Deciding(sender, ms) => DecideGrows(d, sender, ms, how);
      case _ =>
    }
  }

  lemma DecideGrows(c: Client, sender: Name, ms: seq<ChatMessage>, how: Resume)
    requires Sound(c)
    ensures how.Decided? ==> Grows(c, Decide(c, sender, ms, how.accept, how.user))
    ensures how.Decided? ==> Sound(Decide(c, sender, ms, how.accept, how.user))
  {
  }

  lemma ActGrows(c: Client, a: Action)
    requires Sound(c)
    ensures Grows(c, Act(c, a).client) && Sound(Act(c, a).client)
  {
    match a
    case ResumeAt(k, how) => ResumeGrows(c, k, how);
    case Arrive(frame) => HandleGrows(c, frame);
    case _ =>
  }

  /** Over every run, with any number of sends and receipts interleaved: archived messages sit
      at their ids and contacts at their fingerprints. */
  lemma {:induction false} AlwaysSound(me: Name, asks: bool, actions: seq<Action>)
    ensures Sound(Run(me, asks, actions)) && Run(me, asks, actions).me == me
  {
    if actions != [] {
      AlwaysSound(me, asks, actions[..|actions| - 1]);
      ActGrows(Run(me, asks, actions[..|actions| - 1]), actions[|actions| - 1]);
    }
  }

  /** Sending the message archived at `j` a second time gives it a new id and place, as
      the archive holds the one shared message object at both. */
  function SendAgain(archive: seq<Option<Archived>>, j: nat): seq<Option<Archived>>
    requires j < |archive| && archive[j].Some?
  {
    var again := Some(archive[j].value.(msgId := |archive|));
    archive[j := again] + [again]
  }

  /** Why the laws speak of fresh messages: sending one that is archived already always
      breaks the indexing, and sending a fresh one never does. */
  lemma OnlyFreshMessagesKeepIndexing(archive: seq<Option<Archived>>, unsent: Archived, j: nat)
    requires ArchiveIndexed(archive) && j < |archive|
    ensures ArchiveIndexed(archive + [Some(unsent.(msgId := |archive|))])
    ensures archive[j].Some? ==> !ArchiveIndexed(SendAgain(archive, j))
  {
    if archive[j].Some? {
      assert SendAgain(archive, j)[j].value.msgId != j;
    }
  }

  // ---- stable routing ----

  function MessagesOf(ms: seq<ChatMessage>, sender: Name): seq<ChatMessage> {
    if ms == [] then []
    else
      var rest, m := MessagesOf(ms[..|ms| - 1], sender), ms[|ms| - 1];
      if m.sender == sender then rest + [m] else rest
  }

  lemma MessagesOfSnoc(ms: seq<ChatMessage>, m: ChatMessage, sender: Name)
    ensures MessagesOf(ms + [m], sender) == MessagesOf(ms, sender) + if m.sender == sender then [m] else []
  {
    assert (ms + [m])[..|ms|] == ms;
  }

  /** A sender's messages are in the first session that has the sender as a member, exactly
      those handled, in order; no other session has any. */
  ghost predicate Routed(sessions: seq<ChatSession>, me: Name, handled: seq<ChatMessage>, sender: Name) {
    var first := FirstWith(sessions, sender, me);
    && (first.None? ==> MessagesOf(handled, sender) == [])
    && (forall j | 0 <= j < |sessions| ::
          MessagesOf(sessions[j].messages, sender) == if first == Some(j) then MessagesOf(handled, sender) else [])
  }

  lemma FirstWithUnique(sessions: seq<ChatSession>, fp: Name, me: Name, k: nat)
    requires k < |sessions| && HasMember(sessions[k], fp, me)
    requires forall j | 0 <= j < k :: !HasMember(sessions[j], fp, me)
    ensures FirstWith(sessions, fp, me) == Some(k)
  {
  }

  /** A sender's session, once there is one, stays its session for ever. */
  lemma FirstWithStable(a: seq<ChatSession>, b: seq<ChatSession>, fp: Name, me: Name)
    requires SessionsExtend(a, b) && FirstWith(a, fp, me).Some?
    ensures FirstWith(b, fp, me) == FirstWith(a, fp, me)
  {
  }

  lemma OpenKeepsRouted(c: Client, user: User, sender: Name)
    requires Routed(c.sessions, c.me, c.handled, sender)
    ensures Routed(OpenSession(c, user).sessions, c.me, c.handled, sender)
  {
    var was, now := c.sessions, OpenSession(c, user).sessions;
    var n := |was|;
    assert forall j | 0 <= j < n :: now[j] == was[j];
    if FirstWith(was, sender, c.me).Some? {
      FirstWithStable(was, now, sender, c.me);
    } else if HasMember(now[n], sender, c.me) {
      FirstWithUnique(now, sender, c.me, n);
    } else {
      assert FirstWith(now, sender, c.me).None?;
    }
  }

  /** Adding one message to a session, and possibly to the history. */
  lemma PushKeepsRouted(sessions: seq<ChatSession>, me: Name, handled: seq<ChatMessage>, k: nat, m: ChatMessage,
                        handled': seq<ChatMessage>, sender: Name)
    requires Routed(sessions, me, handled, sender) && k < |sessions|
    requires handled' == handled + [m] || (handled' == handled && m.sender != sender)
    requires m.sender == sender ==> FirstWith(sessions, sender, me) == Some(k)
    ensures Routed(PushMessage(sessions, k, m), me, handled', sender)
  {
    var sessions' := PushMessage(sessions, k, m);
    var first := FirstWith(sessions, sender, me);
    MessagesOfSnoc(sessions[k].messages, m, sender);
    MessagesOfSnoc(handled, m, sender);
    SameMembersSameFirst(sessions, sessions', sender, me);
    forall j | 0 <= j < |sessions'|
      ensures MessagesOf(sessions'[j].messages, sender) == if first == Some(j) then MessagesOf(handled', sender) else []
    {
      var was := MessagesOf(sessions[j].messages, sender);
      assert was == if first == Some(j) then MessagesOf(handled, sender) else [];
      if j == k {
        assert MessagesOf(sessions'[j].messages, sender) == was + if m.sender == sender then [m] else [];
      } else {
        assert MessagesOf(sessions'[j].messages, sender) == was;
      }
    }
  }

  lemma SameMembersSameFirst(a: seq<ChatSession>, b: seq<ChatSession>, fp: Name, me: Name)
    requires |a| == |b| && forall j | 0 <= j < |a| :: b[j].users == a[j].users
    ensures FirstWith(b, fp, me) == FirstWith(a, fp, me)
  {
  }

  lemma DeliverKeepsRouted(c: Client, usr: User, m: ChatMessage, sender: Name)
    requires Routed(c.sessions, c.me, c.handled, sender) && usr.fp == m.sender && sender != c.me
    ensures var d := Deliver(c, usr, m); Routed(d.sessions, d.me, d.handled, sender)
  {
    var first := FirstWith(c.sessions, m.sender, c.me);
    if first.None? {
      var o := OpenSession(c, usr);
      var n := |c.sessions|;
      OpenKeepsRouted(c, usr, sender);
      assert FingerprintOf(o.sessions[n].users[1], c.me) == m.sender;
      assert forall j | 0 <= j < n :: !HasMember(o.sessions[j], m.sender, c.me);
      FirstWithUnique(o.sessions, m.sender, c.me, n);
      PushKeepsRouted(o.sessions, c.me, c.handled, n, m, c.handled + [m], sender);
    } else {
      PushKeepsRouted(c.sessions, c.me, c.handled, first.value, m, c.handled + [m], sender);
    }
  }

  lemma {:induction false} DeliverAllKeepsRouted(c: Client, usr: User, ms: seq<ChatMessage>, sender: Name)
    requires Routed(c.sessions, c.me, c.handled, sender) && sender != c.me
    requires forall i | 0 <= i < |ms| :: ms[i].sender == usr.fp
    ensures var d := DeliverAll(c, usr, ms); Routed(d.sessions, d.me, d.handled, sender)
    decreases |ms|
  {
    if ms != [] {
      DeliverKeepsRouted(c, usr, ms[0], sender);
      DeliverAllKeepsRouted(Deliver(c, usr, ms[0]), usr, ms[1..], sender);
    }
  }

  lemma {:induction false} ApplyReceiptsKeepRouted(c: Client, rs: seq<Receipt>, sender: Name)
    requires Routed(c.sessions, c.me, c.handled, sender)
    ensures var d := ApplyReceipts(c, rs); Routed(d.sessions, d.me, d.handled, sender)
    decreases |rs|
  {
    if rs != [] {
      var r, d := rs[0], ApplyReceipt(c, rs[0]);
      if 0 <= r.msgId < |c.archive| && c.archive[r.msgId].Some? && c.archive[r.msgId].value.kind.ContactRequest? {
        OpenKeepsRouted(c, c.archive[r.msgId].value.kind.user, sender);
      }
      ApplyReceiptsKeepRouted(d, rs[1..], sender);
    }
  }

  lemma {:induction false} StartSendsKeepSessions(c: Client, recipients: seq<Name>, text: nat)
    ensures
      var d := StartSends(c, recipients, text);
      d.sessions == c.sessions && d.handled == c.handled && d.me == c.me
    decreases |recipients|
  {
    if recipients != [] {
      StartSendsKeepSessions(StartSend(c, recipients[0], text, Chat), recipients[1..], text);
    }
  }

  lemma ActKeepsRouted(c: Client, a: Action, sender: Name)
    requires Sound(c) && Routed(c.sessions, c.me, c.handled, sender) && sender != c.me
    ensures var d := Act(c, a).client; Routed(d.sessions, d.me, d.handled, sender)
  {
    match a
    case AskContact(user) =>
    case SayIn(k, text) =>
      if k < |c.sessions| {
        PushKeepsRouted(c.sessions, c.me, c.handled, k, ChatMessage(-1, c.me, Nobody, text), c.handled, sender);
      }
    case ResumeAt(k, how) => ResumeKeepsRouted(c, k, how, sender);
    case Arrive(frame) => HandleKeepsRouted(c, frame, sender);
  }

  lemma ResumeKeepsRouted(c: Client, k: nat, how: Resume, sender: Name)
    requires Routed(c.sessions, c.me, c.handled, sender)
    ensures var d := ResumeTask(c, k, how).client; Routed(d.sessions, d.me, d.handled, sender)
  {
    if k < |c.tasks| && c.tasks[k].Deciding? && how.Decided? {
      var d := Decide(Drop(c, k), c.tasks[k].sender, c.tasks[k].messages, how.accept, how.user);
      assert ResumeTask(c, k, how).client == d;
      DecideKeepsRouted(Drop(c, k), c.tasks[k].sender, c.tasks[k].messages, how.accept, how.user, sender);
    } else {
      OtherTasksKeepSessions(c, k, how);
    }
  }

  lemma OtherTasksKeepSessions(c: Client, k: nat, how: Resume)
    requires k < |c.tasks| && c.tasks[k].Deciding? ==> !how.Decided?
    ensures
      var d := ResumeTask(c, k, how).client;
      d.sessions == c.sessions && d.handled == c.handled && d.me == c.me
  {
    if k < |c.tasks| && c.tasks[k].SendTimer? {
      StartSendsKeepSessions(Drop(c, k), c.tasks[k].recipients, c.tasks[k].text);
    }
  }

  lemma DecideKeepsRouted(c: Client, from: Name, ms: seq<ChatMessage>, accept: bool, user: User, sender: Name)
    requires Routed(c.sessions, c.me, c.handled, sender)
    ensures var d := Decide(c, from, ms, accept, user); Routed(d.sessions, d.me, d.handled, sender)
  {
    OpenKeepsRouted(c, user, sender);
  }

  lemma HandleKeepsRouted(c: Client, frame: Frame, sender: Name)
    requires ContactsKeyed(c) && Routed(c.sessions, c.me, c.handled, sender) && sender != c.me
    ensures var d := Handle(c, frame); Routed(d.sessions, d.me, d.handled, sender)
  {
    match frame.body
    case MessagePack(entries) =>
      if frame.sender in c.contacts {
        var ms := Incoming(frame.sender, entries);
        DeliverAllKeepsRouted(SendPack(c, GenReceipt(ms, Received), frame.sender), c.contacts[frame.sender], ms,
                              sender);
      }
    case ReceiptPack(receipts) => ApplyReceiptsKeepRouted(c, receipts, sender);
    case _ =>
  }

  /** Stable conversation routing over every run: what was handled as coming from a known
      sender, other than oneself, is in one session, complete and in order, and no other
      session holds a message of that sender. */
  lemma {:induction false} ConversationsStayTogether(me: Name, asks: bool, actions: seq<Action>, sender: Name)
    requires sender != me
    ensures var c := Run(me, asks, actions); Routed(c.sessions, me, c.handled, sender)
  {
    if actions != [] {
      var before := actions[..|actions| - 1];
      ConversationsStayTogether(me, asks, before, sender);
      AlwaysSound(me, asks, before);
      AlwaysSound(me, asks, actions);
      ActKeepsRouted(Run(me, asks, before), actions[|actions| - 1], sender);
    }
  }

  /** And that session never changes as the run goes on. */
  lemma {:induction false} SessionOfSenderIsFixed(me: Name, asks: bool, actions: seq<Action>, more: seq<Action>,
                                                  sender: Name)
    requires FirstWith(Run(me, asks, actions).sessions, sender, me).Some?
    ensures FirstWith(Run(me, asks, actions + more).sessions, sender, me)
        == FirstWith(Run(me, asks, actions).sessions, sender, me)
    decreases |more|
  {
    if more == [] {
      assert actions + more == actions;
    } else {
      var all, shorter := actions + more, actions + more[..|more| - 1];
      assert all[..|all| - 1] == shorter;
      SessionOfSenderIsFixed(me, asks, actions, more[..|more| - 1], sender);
      AlwaysSound(me, asks, shorter);
      ActGrows(Run(me, asks, shorter), all[|all| - 1]);
      FirstWithStable(Run(me, asks, shorter).sessions, Run(me, asks, all).sessions, sender, me);
    }
  }
}
