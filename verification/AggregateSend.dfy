/**
  Sending one text to every other member of a session: the displayed message settles from
  the receipts of the individual messages. Each individual message is a promise settled by
  its first decisive receipt; the displayed state follows when all of them, or one
  refusal, are in, one scheduler turn later.
*/
module AggregateSpec {

  type Code = bv16

  /** The promise of one individual message. */
  datatype Outcome = Waiting | Resolved | Rejected

  // the receipt codes the server knows; the code of "pending" is the client library's own
  const LOST: Code := 0
  const RECEIVED: Code := 1
  const TIMEOUT: Code := 2
  const VERIFY_FAILED: Code := 4
  const REJECT: Code := 8

  /** What a listener does with a state: resolve, reject, or wait. */
  function Judge(pending: Code, state: Code): Outcome {
    if state & RECEIVED != 0 then Resolved
    else if state & pending == 0 then Rejected
    else Waiting
  }

  datatype Shown = Pending | Received | Failed

  datatype State = State(outcomes: seq<Outcome>, shown: Shown)

  /** `Receipt(i, s)` is a state change of the i-th recipient's message; `Turn` is the
      scheduler turn that continues after the awaited promises. */
  datatype Event = Receipt(i: nat, state: Code) | Turn

  function Initial(recipients: nat): State {
    State(seq(recipients, _ => Waiting), Pending)
  }

  function SettleOne(pending: Code, outcomes: seq<Outcome>, i: nat, state: Code): (r: seq<Outcome>)
    ensures |r| == |outcomes|
  {
    if i < |outcomes| && outcomes[i] == Waiting then outcomes[i := Judge(pending, state)] else outcomes
  }

  /** What the collected outcomes amount to. */
  function Verdict(outcomes: seq<Outcome>): Shown {
    if Rejected in outcomes then Failed
    else if Waiting in outcomes then Pending
    else Received
  }

  function Step(pending: Code, s: State, e: Event): State {
    match e
    case Receipt(i, state) => s.(outcomes := SettleOne(pending, s.outcomes, i, state))
    case Turn => if s.shown.Pending? then s.(shown := Verdict(s.outcomes)) else s
  }

  function Run(pending: Code, recipients: nat, es: seq<Event>): (s: State)
    ensures |s.outcomes| == recipients
  {
    if es == [] then Initial(recipients) else Step(pending, Run(pending, recipients, es[..|es| - 1]), es[|es| - 1])
  }

  /** Recipient `i`'s first decisive receipt in a list of events, read off the events alone. */
  function FirstDecisive(pending: Code, es: seq<Event>, i: nat): Outcome {
    if es == [] then Waiting
    else if es[0].Receipt? && es[0].i == i && Judge(pending, es[0].state) != Waiting then Judge(pending, es[0].state)
    else FirstDecisive(pending, es[1..], i)
  }

  lemma {:induction false} FirstDecisiveSnoc(pending: Code, es: seq<Event>, e: Event, i: nat)
    ensures FirstDecisive(pending, es + [e], i) ==
      if FirstDecisive(pending, es, i) != Waiting then FirstDecisive(pending, es, i)
      else if e.Receipt? && e.i == i then Judge(pending, e.state)
      else Waiting
  {
    if es == [] {
      assert (es + [e])[1..] == [];
    } else {
      assert (es + [e])[1..] == es[1..] + [e];
      FirstDecisiveSnoc(pending, es[1..], e, i);
    }
  }

  /** Each message is settled by its first decisive receipt, whatever comes later. */
  lemma {:induction false} SettledByFirstDecisive(pending: Code, recipients: nat, es: seq<Event>)
    ensures forall i | 0 <= i < recipients ::
      Run(pending, recipients, es).outcomes[i] == FirstDecisive(pending, es, i)
  {
    if es != [] {
      var es', e := es[..|es| - 1], es[|es| - 1];
      assert es == es' + [e];
      SettledByFirstDecisive(pending, recipients, es');
      forall i | 0 <= i < recipients
        ensures Run(pending, recipients, es).outcomes[i] == FirstDecisive(pending, es, i)
      {
        FirstDecisiveSnoc(pending, es', e, i);
      }
    }
  }

  ghost predicate AllReceived(pending: Code, recipients: nat, es: seq<Event>) {
    forall i | 0 <= i < recipients :: FirstDecisive(pending, es, i) == Resolved
  }

  ghost predicate SomeRefused(pending: Code, recipients: nat, es: seq<Event>) {
    exists i :: 0 <= i < recipients && FirstDecisive(pending, es, i) == Rejected
  }

  lemma VerdictMeaning(pending: Code, recipients: nat, es: seq<Event>)
    ensures
      var v := Verdict(Run(pending, recipients, es).outcomes);
      && (v.Failed? <==> SomeRefused(pending, recipients, es))
      && (v.Received? <==> AllReceived(pending, recipients, es))
  {
    var outcomes := Run(pending, recipients, es).outcomes;
    SettledByFirstDecisive(pending, recipients, es);
    if Rejected in outcomes {
      var i :| 0 <= i < |outcomes| && outcomes[i] == Rejected;
      assert FirstDecisive(pending, es, i) == Rejected;
    } else if Waiting in outcomes {
      var i :| 0 <= i < |outcomes| && outcomes[i] == Waiting;
      assert FirstDecisive(pending, es, i) == Waiting;
    } else {
      forall i | 0 <= i < recipients ensures FirstDecisive(pending, es, i) == Resolved {
        assert outcomes[i] in outcomes;
      }
    }
  }

  /** The displayed state, for any number of recipients and any order of receipts: one turn
      after the receipts `es` it is Received exactly when every recipient's first decisive
      receipt is Received, Failed exactly when one is not, and before that it is never
      ahead of the receipts. */
  lemma {:induction false} ShownCorrectly(pending: Code, recipients: nat, es: seq<Event>)
    ensures
      var now, next := Run(pending, recipients, es).shown, Run(pending, recipients, es + [Turn]).shown;
      && (next == Received <==> AllReceived(pending, recipients, es))
      && (next == Failed <==> SomeRefused(pending, recipients, es))
      && (now != Pending ==> now == next)
  {
    assert (es + [Turn])[..|es|] == es;
    VerdictMeaning(pending, recipients, es);
    ShownFollowsVerdict(pending, recipients, es);
  }

  /** Once shown, a verdict is the verdict of the receipts so far, and stays it. */
  lemma {:induction false} ShownFollowsVerdict(pending: Code, recipients: nat, es: seq<Event>)
    ensures
      var s := Run(pending, recipients, es);
      s.shown != Pending ==> s.shown == Verdict(s.outcomes)
  {
    if es != [] {
      var s, e := Run(pending, recipients, es[..|es| - 1]), es[|es| - 1];
      ShownFollowsVerdict(pending, recipients, es[..|es| - 1]);
      if s.shown != Pending && e.Receipt? {
        VerdictFinal(pending, s.outcomes, e.i, e.state);
      }
    }
  }

  /** A verdict that is not Pending cannot be changed by another receipt. */
  lemma VerdictFinal(pending: Code, outcomes: seq<Outcome>, i: nat, state: Code)
    requires Verdict(outcomes) != Pending
    ensures Verdict(SettleOne(pending, outcomes, i, state)) == Verdict(outcomes)
  {
    var after := SettleOne(pending, outcomes, i, state);
    if Rejected in outcomes {
      var j :| 0 <= j < |outcomes| && outcomes[j] == Rejected;
      assert after[j] == Rejected;
    } else if i < |outcomes| {
      assert outcomes[i] in outcomes;
    }
  }

  /** The display never changes after it has settled. */
  lemma {:induction false} NeverChangesAgain(pending: Code, recipients: nat, es: seq<Event>, more: seq<Event>)
    requires Run(pending, recipients, es).shown != Pending
    ensures Run(pending, recipients, es + more).shown == Run(pending, recipients, es).shown
    decreases |more|
  {
    if more == [] {
      assert es + more == es;
    } else {
      var more' := more[..|more| - 1];
      NeverChangesAgain(pending, recipients, es, more');
      assert (es + more)[..|es + more| - 1] == es + more';
    }
  }

  /** With single-bit codes the two bit tests are plain comparisons: only Received resolves
      and only the pending code waits. */
  lemma SingleBitCodes(pending: Code, state: Code)
    requires state in {LOST, RECEIVED, TIMEOUT, VERIFY_FAILED, REJECT, pending}
    requires pending != 0 && pending & (RECEIVED | TIMEOUT | VERIFY_FAILED | REJECT) == 0
    ensures Judge(pending, state) == Resolved <==> state == RECEIVED
    ensures Judge(pending, state) == Waiting <==> state == pending
  {
  }

  lemma UnionHas(a: Code, b: Code)
    ensures (a | b) & b == b
  {
  }

  lemma UnionLacks(a: Code, b: Code)
    requires a & RECEIVED == 0 && b & RECEIVED == 0
    ensures (a | b) & RECEIVED == 0
  {
  }

  lemma LacksBoth(a: Code, b: Code)
    requires a & (RECEIVED | b) == 0
    ensures a & RECEIVED == 0 && a & b == 0
  {
    assert a & b == (a & (RECEIVED | b)) & b;
  }

  /** In general, also for codes of several bits: the received bit decides first, then the
      pending bit, and a code with neither refuses. */
  lemma EveryBitCounts(pending: Code, state: Code)
    ensures Judge(pending, state | RECEIVED) == Resolved
    ensures pending != 0 && state & RECEIVED == 0 && pending & RECEIVED == 0 ==>
      Judge(pending, state | pending) == Waiting
    ensures state & (RECEIVED | pending) == 0 ==> Judge(pending, state) == Rejected
  {
    UnionHas(state, RECEIVED);
    UnionHas(state, pending);
    if state & RECEIVED == 0 && pending & RECEIVED == 0 {
      UnionLacks(state, pending);
    }
    if state & (RECEIVED | pending) == 0 {
      LacksBoth(state, pending);
    }
  }

  /** The events up to and with the last scheduler turn. */
  function UpToLastTurn(es: seq<Event>): seq<Event> {
    if es == [] || es[|es| - 1].Turn? then es else UpToLastTurn(es[..|es| - 1])
  }

  /** A receipt alone changes no display: what is shown is what the last turn has shown. */
  lemma {:induction false} ShownAtLastTurn(pending: Code, recipients: nat, es: seq<Event>)
    ensures Run(pending, recipients, es).shown == Run(pending, recipients, UpToLastTurn(es)).shown
  {
    if es != [] && !es[|es| - 1].Turn? {
      ShownAtLastTurn(pending, recipients, es[..|es| - 1]);
    }
  }
}

module AggregateSend {
  import opened AggregateSpec

  class AggregateMessage {
    const pending: Code
    var outcomes: seq<Outcome>
    var state: Shown

    ghost function View(): State
      reads this
    {
      State(outcomes, state)
    }

    /** One promise for each recipient other than the sender. */
    constructor (pending: Code, recipients: nat)
      ensures this.pending == pending && View() == Initial(recipients)
    {
      this.pending := pending;
      outcomes := seq(recipients, _ => Waiting);
      state := Pending;
    }

    method OnStateChange(i: nat, state: Code)
      modifies this
      ensures View() == Step(pending, old(View()), Receipt(i, state))
    {
      if i < |outcomes| && outcomes[i] == Waiting {
        if state & RECEIVED != 0 {
          outcomes := outcomes[i := Resolved];
        } else if state & pending == 0 {
          outcomes := outcomes[i := Rejected];
        }
      }
    }

    /** Waiting for all promises, and the continuation that sets the displayed state. */
    method ContinueAfterAll()
      modifies this
      ensures View() == Step(pending, old(View()), Turn)
    {
      if state != Pending {
        return;
      }
      var i, missing := 0, false;
      while i < |outcomes|
        invariant 0 <= i <= |outcomes|
        invariant outcomes == old(outcomes) && state == Pending
        invariant Rejected !in outcomes[..i]
        invariant missing <==> Waiting in outcomes[..i]
      {
        assert outcomes[..i + 1] == outcomes[..i] + [outcomes[i]];
        if outcomes[i] == Rejected {
          state := Failed;
          return;
        }
        missing := missing || outcomes[i] == Waiting;
        i := i + 1;
      }
      assert outcomes[..i] == outcomes;
      if !missing {
        state := Received;
      }
    }
  }
}
