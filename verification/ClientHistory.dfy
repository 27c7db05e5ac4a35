/**
  What a client does, read off what happened to it: who is a contact, which frames it made,
  what it handled, and the state of every message it sent, over every run; and what one
  answer, one text, one pack and one receipt change, and nothing else.
*/
module ClientHistory {
  import opened Basics
  import opened Frames
  import opened ChatClient
  import C = ClientLaws

  function Before(me: Name, asks: bool, actions: seq<Action>): Client
    requires actions != []
  {
    Run(me, asks, actions[..|actions| - 1])
  }

  // ---- who is a contact ----

  /** The application says yes to the key of the sender whose request waits as task `k`. */
  ghost predicate Accepts(c: Client, action: Action, user: User) {
    && c.asksApplication && action.ResumeAt? && action.how == Decided(true, user)
    && action.k < |c.tasks| && c.tasks[action.k].Deciding? && c.tasks[action.k].sender == user.fp
  }

  /** The user asked last, or accepted last, among those with this fingerprint. */
  ghost function LastEntered(me: Name, asks: bool, actions: seq<Action>, fp: Name): Option<User> {
    if actions == [] then None
    else
      var c, action := Before(me, asks, actions), actions[|actions| - 1];
      if action.AskContact? && action.user.fp == fp then Some(action.user)
      else if action.ResumeAt? && action.how.Decided? && Accepts(c, action, action.how.user) && action.how.user.fp == fp
      then Some(action.how.user)
      else LastEntered(me, asks, actions[..|actions| - 1], fp)
  }

  ghost function ContactOf(c: Client, fp: Name): Option<User> {
    if fp in c.contacts then Some(c.contacts[fp]) else None
  }

  lemma {:induction false} StartSendsKeepContacts(c: Client, recipients: seq<Name>, text: nat)
    ensures StartSends(c, recipients, text).contacts == c.contacts
    decreases |recipients|
  {
    if recipients != [] {
      StartSendsKeepContacts(StartSend(c, recipients[0], text, Chat), recipients[1..], text);
    }
  }

  lemma {:induction false} DeliverAllKeepsContacts(c: Client, usr: User, ms: seq<ChatMessage>)
    ensures DeliverAll(c, usr, ms).contacts == c.contacts
    decreases |ms|
  {
    if ms != [] {
      DeliverAllKeepsContacts(Deliver(c, usr, ms[0]), usr, ms[1..]);
    }
  }

  lemma {:induction false} ApplyReceiptsKeepContacts(c: Client, rs: seq<Receipt>)
    ensures ApplyReceipts(c, rs).contacts == c.contacts
    decreases |rs|
  {
    if rs != [] {
      ApplyReceiptsKeepContacts(ApplyReceipt(c, rs[0]), rs[1..]);
    }
  }

  lemma HandleKeepsContacts(c: Client, f: Frame)
    ensures Handle(c, f).contacts == c.contacts
  {
    match f.body
    case MessagePack(es) =>
      if f.sender in c.contacts {
        var ms := Incoming(f.sender, es);
        DeliverAllKeepsContacts(SendPack(c, GenReceipt(ms, Received), f.sender), c.contacts[f.sender], ms);
      }
    case ReceiptPack(rs) => ApplyReceiptsKeepContacts(c, rs);
    case _ =>
  }

  lemma ResumeContacts(c: Client, k: nat, how: Resume)
    ensures
      var d := ResumeTask(c, k, how).client;
      d.contacts == if how.Decided? && Accepts(c, ResumeAt(k, how), how.user)
                    then c.contacts[how.user.fp := how.user] else c.contacts
  {
    if k < |c.tasks| && c.tasks[k].SendTimer? {
      StartSendsKeepContacts(Drop(c, k), c.tasks[k].recipients, c.tasks[k].text);
    }
  }

  lemma {:induction false} AsksStays(me: Name, asks: bool, actions: seq<Action>)
    ensures Run(me, asks, actions).asksApplication == asks && Run(me, asks, actions).me == me
  {
    if actions != [] {
      AsksStays(me, asks, actions[..|actions| - 1]);
      C.AlwaysSound(me, asks, actions[..|actions| - 1]);
      C.ActGrows(Before(me, asks, actions), actions[|actions| - 1]);
    }
  }

  /** Over every run: somebody is a contact exactly when the client asked it, or the application
      accepted its request, with the key of the last time. Nobody becomes one by a rejection,
      by an unanswered request or by sending. */
  lemma {:induction false} ContactsAreAskedOrAccepted(me: Name, asks: bool, actions: seq<Action>, fp: Name)
    ensures ContactOf(Run(me, asks, actions), fp) == LastEntered(me, asks, actions, fp)
  {
    if actions != [] {
      var c, action := Before(me, asks, actions), actions[|actions| - 1];
      ContactsAreAskedOrAccepted(me, asks, actions[..|actions| - 1], fp);
      match action
      case AskContact(_) =>
      case SayIn(_, _) =>
      case ResumeAt(k, how) => ResumeContacts(c, k, how);
      case Arrive(f) => HandleKeepsContacts(c, f);
    }
  }

  // ---- the answer to a contact request ----

  /** One receipt for each message, in order. */
  ghost predicate AllReceipted(body: Body, ms: seq<ChatMessage>, state: ReceiptState) {
    && body.ReceiptPack? && |body.receipts| == |ms|
    && forall i | 0 <= i < |ms| :: body.receipts[i] == Receipt(ms[i].msgId, state)
  }

  /** Task `k` is gone, and the frame waits for its signature with the next number. */
  ghost predicate Answered(c: Client, d: Client, k: nat, f: Frame)
    requires k < |c.tasks|
  {
    && d.tasks == Cut(c.tasks, k) + [Signing(f)] && f.id == c.packs && d.packs == c.packs + 1 && f.sender == c.me
    && d.archive == c.archive && d.handled == c.handled && d.me == c.me
  }

  /** The end of a contact request whose key is the sender's. Without a listener the answer is
      "lost", on a no it is "reject", and neither leaves a contact or a session behind; on a
      yes it is "received", the sender is a contact, and one session with it is opened. */
  lemma DecisionOutcome(c: Client, k: nat, accept: bool, user: User) returns (f: Frame)
    requires k < |c.tasks| && c.tasks[k].Deciding? && c.tasks[k].sender == user.fp
    ensures
      var ms, d := c.tasks[k].messages, Act(c, ResumeAt(k, Decided(accept, user))).client;
      && Answered(c, d, k, f) && f.receiver == user.fp
      && (!c.asksApplication ==> AllReceipted(f.body, ms, Lost) && d.contacts == c.contacts && d.sessions == c.sessions)
      && (c.asksApplication && !accept ==>
            AllReceipted(f.body, ms, Reject) && d.contacts == c.contacts && d.sessions == c.sessions)
      && (c.asksApplication && accept ==>
            && AllReceipted(f.body, ms, Received) && d.contacts == c.contacts[user.fp := user]
            && d.sessions == c.sessions + [ChatSession([Self, Peer(user)], [])])
  {
    var state := if !c.asksApplication then Lost else if accept then Received else Reject;
    f := Frame(c.packs, c.me, user.fp, GenReceipt(c.tasks[k].messages, state));
  }

  /** With another key, or without an answer, nothing follows. */
  lemma NoDecision(c: Client, k: nat, how: Resume)
    requires k < |c.tasks| && c.tasks[k].Deciding? && (how.Decided? ==> how.user.fp != c.tasks[k].sender)
    ensures Act(c, ResumeAt(k, how)) == Effect(c.(tasks := Cut(c.tasks, k)), None)
  {
  }

  // ---- sending ----

  /** An encryption for each recipient that is a contact, in order. */
  function Encryptions(contacts: map<Name, User>, recipients: seq<Name>, first: nat): (ts: seq<Task>)
    ensures forall i | 0 <= i < |ts| :: ts[i].Encrypting?
    decreases |recipients|
  {
    if recipients == [] then []
    else
      (if recipients[0] in contacts then [Encrypting(first)] else [])
      + Encryptions(contacts, recipients[1..], first + 1)
  }

  /** One message for each recipient, in order, under the next numbers. */
  ghost predicate OneForEach(archive: seq<Option<Archived>>, recipients: seq<Name>, text: nat, first: nat) {
    && |archive| == first + |recipients|
    && forall x | 0 <= x < |recipients| ::
         archive[first + x] == Some(Archived(first + x, recipients[x], text, Chat, None))
  }

  lemma NthOfBatch(archive: seq<Option<Archived>>, recipients: seq<Name>, text: nat, first: nat, n: nat)
    requires OneForEach(archive, recipients, text, first) && first <= n < |archive|
    ensures archive[n] == Some(Archived(n, recipients[n - first], text, Chat, None))
  {
    var x := n - first;
    assert archive[first + x] == Some(Archived(first + x, recipients[x], text, Chat, None));
  }

  lemma {:induction false} BatchSent(c: Client, recipients: seq<Name>, text: nat)
    ensures
      var d, n := StartSends(c, recipients, text), |c.archive|;
      && d == c.(archive := d.archive, tasks := c.tasks + Encryptions(c.contacts, recipients, n))
      && c.archive <= d.archive && OneForEach(d.archive, recipients, text, n)
    decreases |recipients|
  {
    if recipients != [] {
      var n := |c.archive|;
      var m := StartSend(c, recipients[0], text, Chat);
      var d := StartSends(m, recipients[1..], text);
      BatchSent(m, recipients[1..], text);
      forall x | 0 <= x < |recipients|
        ensures d.archive[n + x] == Some(Archived(n + x, recipients[x], text, Chat, None))
      {
        if x == 0 {
          assert d.archive[n] == m.archive[n];
        } else {
          NthOfBatch(d.archive, recipients[1..], text, n + 1, n + x);
        }
      }
    }
  }

  /** A timer sends one message to each recipient, and does nothing else. */
  lemma TimerOutcome(c: Client, k: nat, how: Resume)
    requires k < |c.tasks| && c.tasks[k].SendTimer?
    ensures
      var e, n, rs := Act(c, ResumeAt(k, how)), |c.archive|, c.tasks[k].recipients;
      && e.sent == None && c.archive <= e.client.archive
      && OneForEach(e.client.archive, rs, c.tasks[k].text, n)
      && e.client == c.(archive := e.client.archive, tasks := Cut(c.tasks, k) + Encryptions(c.contacts, rs, n))
  {
    BatchSent(Drop(c, k), c.tasks[k].recipients, c.tasks[k].text);
  }

  /** A contact request goes out under the next number, when its encryption succeeds. */
  lemma RequestOutcome(c: Client, k: nat, how: Resume)
    requires k < |c.tasks| && c.tasks[k].RequestEncrypted?
    ensures
      var e, n, user, rest := Act(c, ResumeAt(k, how)), |c.archive|, c.tasks[k].user, Cut(c.tasks, k);
      && e.sent == None
      && e.client == if !how.Continue? then c.(tasks := rest)
                     else c.(archive := c.archive + [Some(Archived(n, user.fp, user.key, ContactRequest(user), None))],
                             tasks := rest + if user.fp in c.contacts then [Encrypting(n)] else [])
  {
  }

  /** An encrypted message becomes a frame of its own, to its receiver, with its text. */
  lemma EncryptionOutcome(c: Client, k: nat, how: Resume)
    requires C.Sound(c) && k < |c.tasks| && c.tasks[k].Encrypting?
    requires 0 < c.tasks[k].index < |c.archive|
    ensures
      var e, n, rest := Act(c, ResumeAt(k, how)), c.tasks[k].index, Cut(c.tasks, k);
      var m := c.archive[n].value;
      var f := Frame(c.packs, c.me, m.receiver, MessagePack([Entry(n, m.receiver, m.text)]));
      && e.sent == None
      && e.client == if how.Continue? then c.(packs := c.packs + 1, tasks := rest + [Signing(f)]) else c.(tasks := rest)
  {
  }

  /** A signed frame goes out as it is, once. */
  lemma SigningOutcome(c: Client, k: nat, how: Resume)
    requires k < |c.tasks| && c.tasks[k].Signing?
    ensures Act(c, ResumeAt(k, how)) ==
      Effect(c.(tasks := Cut(c.tasks, k)), if how.Continue? then Some(c.tasks[k].frame) else None)
  {
  }

  /** Whoever is asked is a contact at once; the request follows when it is encrypted. */
  lemma AskOutcome(c: Client, user: User)
    ensures Act(c, AskContact(user)) ==
      Effect(c.(contacts := c.contacts[user.fp := user], tasks := c.tasks + [RequestEncrypted(user)]), None)
  {
  }

  /** A text is shown in its session at once, and its timer is set for the other members. */
  lemma TextOutcome(c: Client, k: nat, text: nat)
    requires k < |c.sessions|
    ensures
      var s := c.sessions[k];
      Act(c, SayIn(k, text)) == Effect(
        c.(sessions := c.sessions[k := s.(messages := s.messages + [ChatMessage(-1, c.me, Nobody, text)])],
           tasks := c.tasks + [SendTimer(Others(s.users), text)]), None)
  {
  }

  /** Every session is one with a single peer, so a text goes to exactly that peer. */
  ghost predicate Pairs(sessions: seq<ChatSession>) {
    forall j | 0 <= j < |sessions| :: IsPair(sessions[j].users)
  }

  ghost predicate IsPair(users: seq<Member>) {
    |users| == 2 && users[0] == Self && users[1].Peer? && Others(users) == [users[1].user.fp]
  }

  lemma OpenIsPair(user: User)
    ensures IsPair([Self, Peer(user)])
  {
    assert [Self, Peer(user)][1..] == [Peer(user)] && [Peer(user)][1..] == [];
    assert Others([Peer(user)]) == [user.fp] + Others([]);
  }

  lemma {:induction false} DeliverAllPairs(c: Client, usr: User, ms: seq<ChatMessage>)
    requires Pairs(c.sessions)
    ensures Pairs(DeliverAll(c, usr, ms).sessions)
    decreases |ms|
  {
    if ms != [] {
      OpenIsPair(usr);
      DeliverAllPairs(Deliver(c, usr, ms[0]), usr, ms[1..]);
    }
  }

  lemma {:induction false} ApplyReceiptsPairs(c: Client, rs: seq<Receipt>)
    requires Pairs(c.sessions)
    ensures Pairs(ApplyReceipts(c, rs).sessions)
    decreases |rs|
  {
    if rs != [] {
      var r := rs[0];
      if 0 <= r.msgId < |c.archive| && c.archive[r.msgId].Some? && c.archive[r.msgId].value.kind.ContactRequest? {
        OpenIsPair(c.archive[r.msgId].value.kind.user);
      }
      ApplyReceiptsPairs(ApplyReceipt(c, r), rs[1..]);
    }
  }

  lemma HandlePairs(c: Client, f: Frame)
    requires Pairs(c.sessions)
    ensures Pairs(Handle(c, f).sessions)
  {
    match f.body
    case MessagePack(es) =>
      if f.sender in c.contacts {
        var ms := Incoming(f.sender, es);
        DeliverAllPairs(SendPack(c, GenReceipt(ms, Received), f.sender), c.contacts[f.sender], ms);
      }
    case ReceiptPack(rs) => ApplyReceiptsPairs(c, rs);
    case _ =>
  }

  lemma ResumePairs(c: Client, k: nat, how: Resume)
    requires Pairs(c.sessions)
    ensures Pairs(ResumeTask(c, k, how).client.sessions)
  {
    if k < |c.tasks| && c.tasks[k].Deciding? && how.Decided? {
      OpenIsPair(how.user);
    } else {
      C.OtherTasksKeepSessions(c, k, how);
    }
  }

  lemma {:induction false} SessionsArePairs(me: Name, asks: bool, actions: seq<Action>)
    ensures Pairs(Run(me, asks, actions).sessions)
  {
    if actions != [] {
      var c, action := Before(me, asks, actions), actions[|actions| - 1];
      SessionsArePairs(me, asks, actions[..|actions| - 1]);
      match action
      case AskContact(_) =>
      case SayIn(_, _) =>
      case ResumeAt(k, how) => ResumePairs(c, k, how);
      case Arrive(f) => HandlePairs(c, f);
    }
  }

  // ---- receiving ----

  /** Nothing but sessions, and what was handled, differs. */
  ghost predicate OnlyDelivered(c: Client, d: Client, ms: seq<ChatMessage>) {
    d == c.(sessions := d.sessions, handled := c.handled + ms)
  }

  lemma DeliverRest(c: Client, usr: User, m: ChatMessage)
    ensures OnlyDelivered(c, Deliver(c, usr, m), [m])
  {
  }

  lemma DeliveredOn(c: Client, d: Client, e: Client, ms: seq<ChatMessage>)
    requires ms != [] && OnlyDelivered(c, d, [ms[0]]) && OnlyDelivered(d, e, ms[1..])
    ensures OnlyDelivered(c, e, ms)
  {
    assert c.handled + ms == (c.handled + [ms[0]]) + ms[1..];
  }

  lemma {:induction false} DeliverAllRest(c: Client, usr: User, ms: seq<ChatMessage>)
    ensures OnlyDelivered(c, DeliverAll(c, usr, ms), ms)
    decreases |ms|
  {
    if ms == [] {
      assert c.handled + ms == c.handled;
    } else {
      var d := Deliver(c, usr, ms[0]);
      DeliverRest(c, usr, ms[0]);
      DeliverAllRest(d, usr, ms[1..]);
      DeliveredOn(c, d, DeliverAll(d, usr, ms[1..]), ms);
    }
  }

  /** A pack of a contact: every message is handled, in order, and one frame with a receipt
      for each goes back. */
  lemma KnownPackOutcome(c: Client, sender: Name, es: seq<Entry>) returns (f: Frame)
    requires sender in c.contacts
    ensures
      var d, ms := HandleMessages(c, sender, es), Incoming(sender, es);
      && d == c.(sessions := d.sessions, handled := c.handled + ms, packs := c.packs + 1, tasks := c.tasks
            + [Signing(f)])
      && f.id == c.packs && f.sender == c.me && f.receiver == sender && AllReceipted(f.body, ms, Received)
  {
    var ms := Incoming(sender, es);
    f := Frame(c.packs, c.me, sender, GenReceipt(ms, Received));
    DeliverAllRest(SendPack(c, GenReceipt(ms, Received), sender), c.contacts[sender], ms);
  }

  /** A pack of somebody else is not handled and not answered: it waits for a decision. */
  lemma UnknownPackOutcome(c: Client, sender: Name, es: seq<Entry>)
    requires sender !in c.contacts
    ensures HandleMessages(c, sender, es) ==
      if es == [] then c else c.(tasks := c.tasks + [Deciding(sender, Incoming(sender, es))])
  {
  }

  ghost predicate IsFirstWith(c: Client, fp: Name, k: nat) {
    && k < |c.sessions| && HasMember(c.sessions[k], fp, c.me)
    && forall j | 0 <= j < k :: !HasMember(c.sessions[j], fp, c.me)
  }

  /** A message goes to the end of the first session with its sender; only when there is none a
      session is opened for it. */
  lemma DeliveryOutcome(c: Client, usr: User, m: ChatMessage, k: nat)
    ensures (forall j | 0 <= j < |c.sessions| :: !HasMember(c.sessions[j], m.sender, c.me)) ==>
      Deliver(c, usr, m).sessions == c.sessions + [ChatSession([Self, Peer(usr)], [m])]
    ensures IsFirstWith(c, m.sender, k) ==>
      Deliver(c, usr, m).sessions == c.sessions[k := c.sessions[k].(messages := c.sessions[k].messages + [m])]
  {
    if IsFirstWith(c, m.sender, k) {
      C.FirstWithUnique(c.sessions, m.sender, c.me, k);
    } else if FirstWith(c.sessions, m.sender, c.me).None? {
      assert [] + [m] == [m];
    }
  }

  /** The messages that arrived in packs of senders who were contacts at that time. */
  function FromContacts(me: Name, asks: bool, actions: seq<Action>): seq<ChatMessage> {
    if actions == [] then []
    else
      var c, action, rest :=
        Before(me, asks, actions), actions[|actions| - 1], FromContacts(me, asks, actions[..|actions| - 1]);
      if action.Arrive? && action.frame.body.MessagePack? && action.frame.sender in c.contacts
      then rest + Incoming(action.frame.sender, action.frame.body.entries) else rest
  }

  /** Over every run: handled is what arrived from contacts, all of it, once, in order. */
  lemma {:induction false} HandledIsWhatArrived(me: Name, asks: bool, actions: seq<Action>)
    ensures Run(me, asks, actions).handled == FromContacts(me, asks, actions)
  {
    if actions != [] {
      var c, action := Before(me, asks, actions), actions[|actions| - 1];
      HandledIsWhatArrived(me, asks, actions[..|actions| - 1]);
      match action
      case AskContact(_) =>
      case SayIn(_, _) =>
      case ResumeAt(k, how) => ResumeHandles(c, k, how);
      case Arrive(f) => HandleHandles(c, f);
    }
  }

  lemma ResumeHandles(c: Client, k: nat, how: Resume)
    ensures ResumeTask(c, k, how).client.handled == c.handled
  {
    if k < |c.tasks| && c.tasks[k].SendTimer? {
      BatchSent(Drop(c, k), c.tasks[k].recipients, c.tasks[k].text);
    }
  }

  lemma {:induction false} ApplyReceiptsRest(c: Client, rs: seq<Receipt>)
    ensures
      var d := ApplyReceipts(c, rs);
      d == c.(archive := d.archive, sessions := d.sessions)
    decreases |rs|
  {
    if rs != [] {
      ApplyReceiptsRest(ApplyReceipt(c, rs[0]), rs[1..]);
    }
  }

  lemma HandleHandles(c: Client, f: Frame)
    ensures Handle(c, f).handled == c.handled +
      if f.body.MessagePack? && f.sender in c.contacts then Incoming(f.sender, f.body.entries) else []
  {
    match f.body
    case MessagePack(es) =>
      if f.sender in c.contacts {
        var _ := KnownPackOutcome(c, f.sender, es);
      }
    case ReceiptPack(rs) => ApplyReceiptsRest(c, rs);
    case _ =>
  }

  /** The server's reports and anything else are not handled at all. */
  lemma IgnoredOutcome(c: Client, f: Frame)
    requires f.body.Error? || f.body.Other?
    ensures Act(c, Arrive(f)) == Effect(c, None)
  {
  }

  // ---- receipts ----

  /** One receipt sets the state of one message; of a contact request it may open a session. */
  lemma ReceiptOutcome(c: Client, r: Receipt)
    ensures
      var known := 0 <= r.msgId < |c.archive| && c.archive[r.msgId].Some?;
      && (!known ==> ApplyReceipt(c, r) == c)
      && (known ==>
            var m := c.archive[r.msgId].value;
            ApplyReceipt(c, r) == c.(
              archive := c.archive[r.msgId := Some(m.(state := Some(r.state)))],
              sessions := match m.kind
                          case Chat => c.sessions
                          case ContactRequest(user) =>
                            if r.state == Received then c.sessions + [ChatSession([Self, Peer(user)], [])]
                            else c.sessions))
  {
  }

  /** The last receipt about message `n` in a list. */
  function LastIn(rs: seq<Receipt>, n: nat): Option<ReceiptState> {
    if rs == [] then None
    else if rs[|rs| - 1].msgId == n then Some(rs[|rs| - 1].state)
    else LastIn(rs[..|rs| - 1], n)
  }

  /** The last receipt about message `n` that arrived after it was archived. */
  function LastReceipt(me: Name, asks: bool, actions: seq<Action>, n: nat): Option<ReceiptState> {
    if actions == [] then None
    else
      var c, action := Before(me, asks, actions), actions[|actions| - 1];
      var now := if action.Arrive? && action.frame.body.ReceiptPack? && n < |c.archive|
                 then LastIn(action.frame.body.receipts, n) else None;
      if now.Some? then now else LastReceipt(me, asks, actions[..|actions| - 1], n)
  }

  ghost predicate StateIs(c: Client, n: nat, state: Option<ReceiptState>) {
    n < |c.archive| && c.archive[n].Some? ==> c.archive[n].value.state == state
  }

  lemma {:induction false} LastInCons(r: Receipt, rs: seq<Receipt>, n: nat)
    ensures LastIn([r] + rs, n) ==
      if LastIn(rs, n).Some? then LastIn(rs, n) else if r.msgId == n then Some(r.state) else None
    decreases |rs|
  {
    if rs == [] {
      assert [r] + rs == [r];
    } else {
      assert ([r] + rs)[..|rs|] == [r] + rs[..|rs| - 1];
      LastInCons(r, rs[..|rs| - 1], n);
    }
  }

  lemma {:induction false} ReceiptsSetStates(c: Client, rs: seq<Receipt>, n: nat, state: Option<ReceiptState>)
    requires StateIs(c, n, state)
    ensures
      var d := ApplyReceipts(c, rs);
      && |d.archive| == |c.archive|
      && StateIs(d, n, if LastIn(rs, n).Some? then LastIn(rs, n) else state)
    decreases |rs|
  {
    if rs != [] {
      var r := rs[0];
      ReceiptsSetStates(ApplyReceipt(c, r), rs[1..], n, if r.msgId == n then Some(r.state) else state);
      LastInCons(r, rs[1..], n);
      assert [r] + rs[1..] == rs;
    }
  }

  lemma NewcomersHaveNoState(c: Client, action: Action, n: nat, state: Option<ReceiptState>)
    requires !action.Arrive? && StateIs(c, n, state) && (n >= |c.archive| ==> state == None)
    ensures
      var d := Act(c, action).client;
      StateIs(d, n, state) && |d.archive| >= |c.archive|
  {
    if action.ResumeAt? && action.k < |c.tasks| && c.tasks[action.k].SendTimer? {
      BatchSent(Drop(c, action.k), c.tasks[action.k].recipients, c.tasks[action.k].text);
      var d, m := Act(c, action).client, |c.archive|;
      if m <= n < |d.archive| {
        NthOfBatch(d.archive, c.tasks[action.k].recipients, c.tasks[action.k].text, m, n);
      }
    }
  }

  /** Over every run: the state of a message is the one in the last receipt about it, whoever
      sent that, and it has none before the first. */
  lemma {:induction false} StateIsLastReceipt(me: Name, asks: bool, actions: seq<Action>, n: nat)
    ensures StateIs(Run(me, asks, actions), n, LastReceipt(me, asks, actions, n))
    ensures n >= |Run(me, asks, actions).archive| ==> LastReceipt(me, asks, actions, n) == None
  {
    if actions != [] {
      var c, action := Before(me, asks, actions), actions[|actions| - 1];
      StateIsLastReceipt(me, asks, actions[..|actions| - 1], n);
      if action.Arrive? {
        HandleSetsStates(c, action.frame, n, LastReceipt(me, asks, actions[..|actions| - 1], n));
      } else {
        NewcomersHaveNoState(c, action, n, LastReceipt(me, asks, actions[..|actions| - 1], n));
      }
    }
  }

  lemma HandleSetsStates(c: Client, f: Frame, n: nat, state: Option<ReceiptState>)
    requires StateIs(c, n, state)
    ensures
      var d := Handle(c, f);
      var now := if f.body.ReceiptPack? && n < |c.archive| then LastIn(f.body.receipts, n) else None;
      |d.archive| == |c.archive| && StateIs(d, n, if now.Some? then now else state)
  {
    match f.body
    case MessagePack(es) =>
      if f.sender in c.contacts {
        var _ := KnownPackOutcome(c, f.sender, es);
      }
    case ReceiptPack(rs) => ReceiptsSetStates(c, rs, n, state);
    case _ =>
  }

  // ---- frames ----

  function Pending(tasks: seq<Task>): multiset<int> {
    if tasks == [] then multiset{}
    else
      var rest := Pending(tasks[..|tasks| - 1]);
      match tasks[|tasks| - 1]
      case Signing(f) => rest + multiset{f.id}
      case _ => rest
  }

  /** The number of the frame that this action finishes. */
  function FinishedBy(c: Client, action: Action): multiset<int> {
    if action.ResumeAt? && action.k < |c.tasks| && c.tasks[action.k].Signing?
    then multiset{c.tasks[action.k].frame.id} else multiset{}
  }

  /** The numbers of the frames that were sent, or whose signing failed. */
  function Finished(me: Name, asks: bool, actions: seq<Action>): multiset<int> {
    if actions == [] then multiset{}
    else
      Finished(me, asks, actions[..|actions| - 1]) + FinishedBy(Before(me, asks, actions), actions[|actions| - 1])
  }

  /** The numbers 1 to n - 1, each once. */
  function UpTo(n: nat): multiset<int> {
    if n <= 1 then multiset{} else UpTo(n - 1) + multiset{n - 1}
  }

  lemma PendingSnoc(ts: seq<Task>, t: Task)
    ensures Pending(ts + [t]) == Pending(ts) + if t.Signing? then multiset{t.frame.id} else multiset{}
  {
    assert (ts + [t])[..|ts|] == ts;
  }

  lemma {:induction false} PendingConcat(ts: seq<Task>, us: seq<Task>)
    ensures Pending(ts + us) == Pending(ts) + Pending(us)
    decreases |us|
  {
    if us == [] {
      assert ts + us == ts;
    } else {
      PendingConcat(ts, us[..|us| - 1]);
      SplitLast(ts, us);
      PendingSnoc(ts + us[..|us| - 1], us[|us| - 1]);
    }
  }

  lemma {:induction false} PendingNone(ts: seq<Task>)
    requires forall i | 0 <= i < |ts| :: !ts[i].Signing?
    ensures Pending(ts) == multiset{}
  {
    if ts != [] {
      PendingNone(ts[..|ts| - 1]);
    }
  }

  lemma CutParts<T>(s: seq<T>, k: nat)
    requires k < |s|
    ensures s == s[..k] + [s[k]] + s[k + 1..] && Cut(s, k) == s[..k] + s[k + 1..]
  {
  }

  lemma PendingParts(ts: seq<Task>, before: seq<Task>, t: Task, after: seq<Task>, cut: seq<Task>)
    requires ts == before + [t] + after && cut == before + after
    ensures Pending(ts) == Pending(cut) + if t.Signing? then multiset{t.frame.id} else multiset{}
  {
    PendingConcat(before + [t], after);
    PendingSnoc(before, t);
    PendingConcat(before, after);
  }

  lemma PendingCut(ts: seq<Task>, k: nat)
    requires k < |ts|
    ensures Pending(ts) == Pending(Cut(ts, k)) + if ts[k].Signing? then multiset{ts[k].frame.id} else multiset{}
  {
    CutParts(ts, k);
    PendingParts(ts, ts[..k], ts[k], ts[k + 1..], Cut(ts, k));
  }

  /** The numbers of all frames made so far, and whose they are. */
  ghost predicate Numbered(c: Client, finished: multiset<int>) {
    && finished + Pending(c.tasks) == UpTo(c.packs) && c.packs >= 1
    && forall k | 0 <= k < |c.tasks| && c.tasks[k].Signing? :: c.tasks[k].frame.sender == c.me
  }

  /** One more task, with the next number if it is a frame. */
  lemma OneMoreTask(c: Client, d: Client, t: Task, finished: multiset<int>)
    requires Numbered(c, finished) && d.me == c.me && d.tasks == c.tasks + [t]
    requires if t.Signing? then t.frame.id == c.packs && t.frame.sender == c.me && d.packs == c.packs + 1
             else d.packs == c.packs
    ensures Numbered(d, finished)
  {
    PendingSnoc(c.tasks, t);
  }

  lemma OneTaskLess(c: Client, k: nat, finished: multiset<int>)
    requires Numbered(c, finished) && k < |c.tasks|
    ensures Numbered(Drop(c, k), if c.tasks[k].Signing? then finished + multiset{c.tasks[k].frame.id} else finished)
  {
    PendingCut(c.tasks, k);
  }

  /** What a task leaves behind: nothing new, or one more task, with the next number if it is a
      frame. */
  ghost predicate OneMoreAtMost(c: Client, d: Client) {
    && d.me == c.me
    && ((d.tasks == c.tasks && d.packs == c.packs)
        || exists t: Task :: d.tasks == c.tasks + [t]
             && if t.Signing? then t.frame.id == c.packs && t.frame.sender == c.me && d.packs == c.packs + 1
                else d.packs == c.packs)
  }

  lemma OneMoreNumbered(c: Client, d: Client, finished: multiset<int>)
    requires Numbered(c, finished) && OneMoreAtMost(c, d)
    ensures Numbered(d, finished)
  {
    if d.tasks != c.tasks || d.packs != c.packs {
      var t: Task :| d.tasks == c.tasks + [t]
        && if t.Signing? then t.frame.id == c.packs && t.frame.sender == c.me && d.packs == c.packs + 1
           else d.packs == c.packs;
      OneMoreTask(c, d, t, finished);
    }
  }

  lemma ResumeOneMore(c: Client, k: nat, how: Resume)
    requires k < |c.tasks| && !c.tasks[k].SendTimer?
    ensures OneMoreAtMost(Drop(c, k), ResumeTask(c, k, how).client)
  {
  }

  lemma ResumeNumbered(c: Client, k: nat, how: Resume, finished: multiset<int>)
    requires Numbered(c, finished) && k < |c.tasks|
    ensures Numbered(ResumeTask(c, k, how).client,
                     if c.tasks[k].Signing? then finished + multiset{c.tasks[k].frame.id} else finished)
  {
    OneTaskLess(c, k, finished);
    if c.tasks[k].SendTimer? {
      BatchNumbered(Drop(c, k), c.tasks[k].recipients, c.tasks[k].text, finished);
    } else {
      ResumeOneMore(c, k, how);
      OneMoreNumbered(Drop(c, k), ResumeTask(c, k, how).client,
                      if c.tasks[k].Signing? then finished + multiset{c.tasks[k].frame.id} else finished);
    }
  }

  lemma BatchNumbered(c: Client, recipients: seq<Name>, text: nat, finished: multiset<int>)
    requires Numbered(c, finished)
    ensures Numbered(StartSends(c, recipients, text), finished)
  {
    var more := Encryptions(c.contacts, recipients, |c.archive|);
    BatchSent(c, recipients, text);
    PendingConcat(c.tasks, more);
    PendingNone(more);
  }

  lemma HandleNumbered(c: Client, f: Frame, finished: multiset<int>)
    requires Numbered(c, finished)
    ensures Numbered(Handle(c, f), finished)
  {
    match f.body
    case MessagePack(es) =>
      if f.sender in c.contacts {
        var g := KnownPackOutcome(c, f.sender, es);
        OneMoreTask(c, Handle(c, f), Signing(g), finished);
      } else if es != [] {
        OneMoreTask(c, Handle(c, f), Deciding(f.sender, Incoming(f.sender, es)), finished);
      }
    case ReceiptPack(rs) => ApplyReceiptsRest(c, rs);
    case _ =>
  }

  lemma StepNumbered(c: Client, action: Action, finished: multiset<int>)
    requires Numbered(c, finished)
    ensures Numbered(Act(c, action).client, finished + FinishedBy(c, action))
  {
    assert finished + multiset{} == finished;
    match action
    case AskContact(user) => OneMoreTask(c, Act(c, action).client, RequestEncrypted(user), finished);
    case SayIn(k, text) =>
      if k < |c.sessions| {
        OneMoreTask(c, Act(c, action).client, SendTimer(Others(c.sessions[k].users), text), finished);
      }
    case ResumeAt(k, how) => if k < |c.tasks| { ResumeNumbered(c, k, how, finished); }
    case Arrive(f) => HandleNumbered(c, f, finished);
  }

  /** Over every run: a client's frames carry its name and the numbers 1, 2, 3 and so on, each
      number one frame, whether it is still to be signed, sent, or given up. */
  lemma {:induction false} FramesAreNumbered(me: Name, asks: bool, actions: seq<Action>)
    ensures Numbered(Run(me, asks, actions), Finished(me, asks, actions))
  {
    if actions != [] {
      FramesAreNumbered(me, asks, actions[..|actions| - 1]);
      StepNumbered(Before(me, asks, actions), actions[|actions| - 1], Finished(me, asks, actions[..|actions| - 1]));
    }
  }
}
