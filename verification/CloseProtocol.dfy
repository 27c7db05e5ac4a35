/**
  Closing a started session: a receive loop, a send loop and any number of other callers
  race to close it, through a channel with two slots. A session that is joined to another
  connection later is not covered.
*/
module CloseSpec {
  import opened Basics

  datatype RecvLoop = RecvHead | InRead | RecvExited

  datatype SendLoop = SendHead | SendExited

  /** What a channel operation can go wrong with. */
  datatype Fault = SendBlocks | SendOnClosed | CloseOfClosed

  const SLOTS := 2

  /** `tokens` and `closed` describe the close channel; `effective` counts the calls of
      `Close` that did anything. */
  datatype State = State(
    connected: bool,
    hasConnection: bool,
    connectionOpen: bool,
    tokens: nat,
    closed: bool,
    recv: RecvLoop,
    send: SendLoop,
    effective: nat,
    fault: Option<Fault>)

  function Started(hasConnection: bool): State {
    State(true, hasConnection, true, 0, false, RecvHead, SendHead, 0, None)
  }

  function SendToken(s: State): State {
    if s.fault.Some? then s
    else if s.closed then s.(fault := Some(SendOnClosed))
    else if s.tokens >= SLOTS then s.(fault := Some(SendBlocks))
    else s.(tokens := s.tokens + 1)
  }

  function CloseChannel(s: State): State {
    if s.fault.Some? then s
    else if s.closed then s.(fault := Some(CloseOfClosed))
    else s.(closed := true)
  }

  function DropConnection(s: State): State {
    if s.fault.None? && s.hasConnection then s.(connectionOpen := false, connected := false) else s
  }

  function Close(s: State): State {
    if s.connected then
      CloseChannel(DropConnection(SendToken(SendToken(s)))).(effective := s.effective + 1)
    else s
  }

  /** Receiving from the close channel succeeds when a token is there or it is closed. */
  predicate CloseReadable(s: State) {
    s.tokens > 0 || s.closed
  }

  function TakeToken(s: State): State {
    if s.tokens > 0 then s.(tokens := s.tokens - 1) else s
  }

  datatype Event =
    | RecvSelect     // the receive loop's select: exit when it can, else start reading
    | RecvMessage    // a frame was read and handled
    | RecvFails      // a read error, a text frame, or a panic while handling
    | SendExit       // the send loop takes its close branch
    | SendMessage    // the send loop takes its mailbox branch
    | SendFails      // the mailbox is gone, or a panic while sending
    | OtherClose     // anybody else calls Close

  function Step(s: State, e: Event): State {
    match e
    case RecvSelect =>
      if !s.recv.RecvHead? then s
      else if CloseReadable(s) then TakeToken(s).(recv := RecvExited)
      else s.(recv := InRead)
    case RecvMessage => if s.recv.InRead? then s.(recv := RecvHead) else s
    case RecvFails => if s.recv.InRead? then Close(s).(recv := RecvExited) else s
    case SendExit => if s.send.SendHead? && CloseReadable(s) then TakeToken(s).(send := SendExited) else s
    case SendMessage => s
    case SendFails => if s.send.SendHead? then Close(s).(send := SendExited) else s
    case OtherClose => Close(s)
  }

  function Run(hasConnection: bool, es: seq<Event>): State {
    if es == [] then Started(hasConnection) else Step(Run(hasConnection, es[..|es| - 1]), es[|es| - 1])
  }

  ghost predicate Invariant(s: State) {
    && s.fault.None?
    && s.hasConnection
    && s.effective <= 1
    && s.tokens <= SLOTS
    && (s.connected <==> s.effective == 0)
    && (s.connected <==> !s.closed)
    && (s.connected <==> s.connectionOpen)
    && (s.connected ==> s.tokens == 0)
  }

  /** Every interleaving: at most one call of Close does anything, no send on the close
      channel blocks or hits a closed channel, and it is closed once. */
  lemma {:induction false} CloseIsSafe(es: seq<Event>)
    ensures Invariant(Run(true, es))
  {
    if es != [] {
      CloseIsSafe(es[..|es| - 1]);
    }
  }

  /** After an effective Close each loop can leave: the receive loop at its select must, a
      blocked read can only fail because the connection is closed and then leaves, and the
      send loop's close branch is ready. None of it goes wrong. */
  ghost predicate BothCanExit(s: State) {
    && CloseReadable(s) && !s.connectionOpen
    && (s.recv.RecvHead? ==> Step(s, RecvSelect).recv == RecvExited)
    && (s.recv.InRead? ==> Step(s, RecvFails).recv == RecvExited)
    && Step(s, SendExit).send == SendExited
    && Finish(s).recv == RecvExited && Finish(s).send == SendExited && Finish(s).fault.None?
  }

  lemma BothLoopsCanExit(es: seq<Event>)
    requires Run(true, es).effective > 0
    ensures BothCanExit(Run(true, es))
  {
    CloseIsSafe(es);
    ClosedStateExits(Run(true, es));
  }

  lemma ClosedStateExits(s: State)
    requires Invariant(s) && s.effective > 0
    ensures BothCanExit(s)
  {
    assert Close(s) == s;
  }

  /** Closed once and for all: by one effective call, with the connection closed and the
      close channel readable, so that the other loop has its exit. */
  ghost predicate ClosedForGood(s: State) {
    s.effective == 1 && !s.connected && !s.connectionOpen && CloseReadable(s) && BothCanExit(s)
  }

  /** No loop leaves an open session behind, whether it was told to leave or failed. */
  lemma {:induction false} ExitedMeansClosed(es: seq<Event>)
    ensures
      var s := Run(true, es);
      s.recv.RecvExited? || s.send.SendExited? ==> ClosedForGood(s)
  {
    ExitedMeansEffective(es);
    CloseIsSafe(es);
    if Run(true, es).effective > 0 {
      BothLoopsCanExit(es);
    }
  }

  lemma {:induction false} ExitedMeansEffective(es: seq<Event>)
    ensures
      var s := Run(true, es);
      s.recv.RecvExited? || s.send.SendExited? ==> s.effective == 1
  {
    if es != [] {
      var n := |es| - 1;
      ExitedMeansEffective(es[..n]);
      CloseIsSafe(es[..n]);
      CloseIsSafe(es);
    }
  }

  /** What calls `Close`: somebody else, a read that fails, or a send loop that fails. */
  ghost predicate Causes(s: State, e: Event) {
    e.OtherClose? || (e.RecvFails? && s.recv.InRead?) || (e.SendFails? && s.send.SendHead?)
  }

  ghost predicate CausedAt(es: seq<Event>, i: nat) {
    i < |es| && Causes(Run(true, es[..i]), es[i])
  }

  lemma CausedAtSnoc(es: seq<Event>, i: nat)
    requires es != [] && i < |es| - 1
    ensures CausedAt(es, i) <==> CausedAt(es[..|es| - 1], i)
  {
    assert es[..|es| - 1][..i] == es[..i];
  }

  /** A session is closed exactly when something called for it. */
  lemma {:induction false} ClosedIffCaused(es: seq<Event>)
    ensures Run(true, es).effective == 1 <==> exists i: nat :: CausedAt(es, i)
  {
    if es != [] {
      var n := |es| - 1;
      ClosedIffCaused(es[..n]);
      CloseIsSafe(es[..n]);
      if i: nat :| CausedAt(es[..n], i) {
        CausedAtSnoc(es, i);
      } else {
        forall i: nat | CausedAt(es, i) ensures i == n {
          if i < n {
            CausedAtSnoc(es, i);
          }
        }
        assert CausedAt(es, n) <==> Causes(Run(true, es[..n]), es[n]);
      }
    }
  }

  /** As long as nothing called for a close, both loops are there, and the receive loop can
      read and come back to read again. */
  lemma OpenSessionGoesOn(es: seq<Event>)
    requires Run(true, es).effective == 0
    ensures
      var s := Run(true, es);
      var reading := if s.recv.InRead? then es else es + [RecvSelect];
      && s.connected && s.connectionOpen && !CloseReadable(s) && s.send.SendHead?
      && Run(true, reading) == s.(recv := InRead)
      && Run(true, reading + [RecvMessage]) == s.(recv := RecvHead)
  {
    var s := Run(true, es);
    var reading := if s.recv.InRead? then es else es + [RecvSelect];
    ExitedMeansEffective(es);
    CloseIsSafe(es);
    assert (es + [RecvSelect])[..|es|] == es;
    assert (reading + [RecvMessage])[..|reading|] == reading;
  }

  /** Whether a loop leaves in this step by reading the close channel. */
  predicate LeavesByChannel(s: State, e: Event) {
    || (e.RecvSelect? && !s.recv.RecvExited? && Step(s, e).recv.RecvExited?)
    || (e.SendExit? && !s.send.SendExited? && Step(s, e).send.SendExited?)
  }

  function ExitsByChannel(es: seq<Event>): nat {
    if es == [] then 0
    else
      var n := |es| - 1;
      ExitsByChannel(es[..n]) + if LeavesByChannel(Run(true, es[..n]), es[n]) then 1 else 0
  }

  function LoopsLeft(s: State): nat {
    (if s.recv.RecvExited? then 1 else 0) + (if s.send.SendExited? then 1 else 0)
  }

  lemma StepAccountsTokens(s: State, e: Event, exits: nat)
    requires Invariant(s) && s.tokens + exits == 2 * s.effective && exits <= LoopsLeft(s)
    ensures
      var r, more := Step(s, e), exits + if LeavesByChannel(s, e) then 1 else 0;
      r.tokens + more == 2 * r.effective && more <= LoopsLeft(r)
  {
  }

  /** A close leaves one token for each loop, and each loop takes one at most. */
  lemma {:induction false} TokensAccounted(es: seq<Event>)
    ensures
      var s := Run(true, es);
      s.tokens + ExitsByChannel(es) == 2 * s.effective && ExitsByChannel(es) <= LoopsLeft(s)
  {
    if es != [] {
      var n := |es| - 1;
      TokensAccounted(es[..n]);
      CloseIsSafe(es[..n]);
      StepAccountsTokens(Run(true, es[..n]), es[n], ExitsByChannel(es[..n]));
    }
  }

  /** The shortest way out. */
  function Finish(s: State): State {
    Step(Step(s, if s.recv.InRead? then RecvFails else RecvSelect), SendExit)
  }

  /** The one thing all this depends on: a session without a connection would stay
      connected after its first Close, and the second would send on a closed channel. */
  lemma SafeIffConnectionPresent(hasConnection: bool)
    ensures (forall es :: Run(hasConnection, es).fault.None?) <==> hasConnection
  {
    if hasConnection {
      forall es ensures Run(hasConnection, es).fault.None? {
        CloseIsSafe(es);
      }
    } else {
      var twice := [OtherClose, OtherClose];
      assert twice[..1] == [OtherClose];
      assert Run(false, []) == Started(false);
      assert Run(false, [OtherClose]) == Close(Started(false));
      assert Run(false, twice) == Close(Close(Started(false)));
      assert Run(false, twice).fault == Some(SendOnClosed);
    }
  }
}

module CloseProtocol {
  import opened Basics
  import opened CloseSpec

  /** A channel whose operations say when they block for ever or panic. */
  class CloseChannel {
    var tokens: nat
    var closed: bool

    constructor ()
      ensures tokens == 0 && !closed
    {
      tokens, closed := 0, false;
    }

    method Send() returns (fault: Option<Fault>)
      modifies this`tokens
      ensures fault ==
        if closed then Some(SendOnClosed) else if old(tokens) >= SLOTS then Some(SendBlocks) else None
      ensures tokens == old(tokens) + if fault.None? then 1 else 0
    {
      if closed {
        return Some(SendOnClosed);
      }
      if tokens >= SLOTS {
        return Some(SendBlocks);
      }
      tokens := tokens + 1;
      return None;
    }

    method Close() returns (fault: Option<Fault>)
      modifies this`closed
      ensures fault == (if old(closed) then Some(CloseOfClosed) else None) && closed
    {
      fault := if closed then Some(CloseOfClosed) else None;
      closed := true;
    }
  }

  class Session {
    var connected: bool
    var hasConnection: bool
    var connectionOpen: bool
    const chClose: CloseChannel
    // what went wrong, if anything did; nothing follows it
    var fault: Option<Fault>
    // positions of the two loops, and the closes so far
    ghost var recv: RecvLoop
    ghost var send: SendLoop
    ghost var effective: nat

    ghost function View(): State
      reads this, chClose
    {
      State(connected, hasConnection, connectionOpen, chClose.tokens, chClose.closed, recv, send, effective, fault)
    }

    /** The state in which the two loops are started. */
    constructor ()
      ensures View() == Started(true) && fresh(chClose)
    {
      chClose := new CloseChannel();
      connected, hasConnection, connectionOpen, fault := true, true, true, None;
      recv, send, effective := RecvHead, SendHead, 0;
    }

    method SendToken()
      modifies this`fault, chClose`tokens
      ensures View() == CloseSpec.SendToken(old(View()))
    {
      if fault.None? {
        fault := chClose.Send();
      }
    }

    /** In whatever state; where the invariant of the runs holds nothing goes wrong. */
    method Close()
      modifies this`connected, this`connectionOpen, this`effective, this`fault, chClose
      ensures View() == CloseSpec.Close(old(View()))
      ensures Invariant(old(View())) ==> Invariant(View())
    {
      if connected {
        SendToken();
        SendToken();
        if fault.None? && hasConnection {
          connectionOpen := false;
          connected := false;
        }
        if fault.None? {
          fault := chClose.Close();
        }
        effective := effective + 1;
      }
    }
  }
}
