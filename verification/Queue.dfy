/**
  The client's message queue: a hand-written doubly linked list with room for one
  waiting consumer. `QueueSpec` says what it means on plain sequences and proves the
  laws over every run; `LinkedQueue` is the pointer code, proved against it.
*/
module QueueSpec {
  import opened Basics

  /** A promise handed out by `dequeue`. Promises are named by their order of creation. */
  datatype Promise<+T> = Pending | Fulfilled(value: T) | Rejected

  /** `delivered` and `settled` are history: the values taken out of the list, and the
      promises on which `resolve` or `reject` has been called, both in order. */
  datatype State<T> = State(
    contents: seq<T>,
    awaiter: Option<nat>,
    promises: seq<Promise<T>>,
    delivered: seq<T>,
    settled: seq<nat>)

  function Initial<T>(): State<T> {
    State([], None, [], [], [])
  }

  /** Calling `resolve` or `reject`: only the first call on a promise has an effect. */
  function Settle<T>(q: State<T>, p: nat, outcome: Promise<T>): State<T> {
    q.(promises := if p < |q.promises| && q.promises[p].Pending? then q.promises[p := outcome] else q.promises,
       settled := q.settled + [p])
  }

  /** Take the first element out and resolve promise `p` with it. */
  function Hand<T>(q: State<T>, p: nat): State<T>
    requires q.contents != []
  {
    Settle(q.(contents := q.contents[1..], delivered := q.delivered + [q.contents[0]]), p, Fulfilled(q.contents[0]))
  }

  function EnqueueStep<T>(q: State<T>, x: T): State<T> {
    var q' := q.(contents := q.contents + [x]);
    if q.awaiter.Some? then Hand(q'.(awaiter := None), q.awaiter.value) else q'
  }

  function DequeueStep<T>(q: State<T>): State<T> {
    var q', p := q.(promises := q.promises + [Pending]), |q.promises|;
    if q.contents == [] then q'.(awaiter := Some(p)) else Hand(q', p)
  }

  function RejectStep<T>(q: State<T>): State<T> {
    if q.awaiter.Some? then Settle(q.(awaiter := None), q.awaiter.value, Rejected) else q
  }

  datatype Op<T> = Enqueue(x: T) | Dequeue | RejectAwaiter

  function Step<T>(q: State<T>, op: Op<T>): State<T> {
    match op
    case Enqueue(x) => EnqueueStep(q, x)
    case Dequeue => DequeueStep(q)
    case RejectAwaiter => RejectStep(q)
  }

  function Run<T>(ops: seq<Op<T>>): State<T> {
    if ops == [] then Initial() else Step(Run(ops[..|ops| - 1]), ops[|ops| - 1])
  }

  function Enqueued<T>(ops: seq<Op<T>>): seq<T> {
    if ops == [] then []
    else
      var rest := Enqueued(ops[..|ops| - 1]);
      match ops[|ops| - 1]
      case Enqueue(x) => rest + [x]
      case _ => rest
  }

  /** The values of the fulfilled promises, in the order the promises were created. */
  function FulfilledValues<T>(ps: seq<Promise<T>>): seq<T> {
    if ps == [] then []
    else
      var rest := FulfilledValues(ps[..|ps| - 1]);
      match ps[|ps| - 1]
      case Fulfilled(v) => rest + [v]
      case _ => rest
  }

  /** No promise is pending unless it is the one stored in the queue. */
  ghost predicate NoLostPromise<T>(q: State<T>) {
    forall p | 0 <= p < |q.promises| && q.promises[p].Pending? :: q.awaiter == Some(p)
  }

  ghost predicate NoRepeats(s: seq<nat>) {
    forall i, j | 0 <= i < j < |s| :: s[i] != s[j]
  }

  ghost predicate Invariant<T>(q: State<T>) {
    // a stored awaiter implies an empty queue; it is pending and nothing newer exists
    && (q.awaiter.Some? ==>
          && q.contents == []
          && q.awaiter.value + 1 == |q.promises|
          && q.promises[q.awaiter.value].Pending?)
    // the promises settled so far are exactly the non-pending ones, each settled once
    && NoRepeats(q.settled)
    && (forall p: nat :: p in q.settled <==> p < |q.promises| && !q.promises[p].Pending?)
    && FulfilledValues(q.promises) == q.delivered
  }

  lemma FulfilledAppend<T>(ps: seq<Promise<T>>, p: Promise<T>)
    ensures FulfilledValues(ps + [p]) == FulfilledValues(ps) + (if p.Fulfilled? then [p.value] else [])
  {
    assert (ps + [p])[..|ps|] == ps;
  }

  /** Settling the newest promise. */
  lemma SettleNewest<T>(q: State<T>, outcome: Promise<T>)
    requires q.promises != [] && q.promises[|q.promises| - 1].Pending? && !outcome.Pending?
    requires NoRepeats(q.settled)
    requires forall p: nat :: p in q.settled <==> p < |q.promises| && !q.promises[p].Pending?
    ensures
      var q' := Settle(q, |q.promises| - 1, outcome);
      && NoRepeats(q'.settled)
      && (forall p: nat :: p in q'.settled <==> p < |q'.promises| && !q'.promises[p].Pending?)
      && FulfilledValues(q'.promises) == FulfilledValues(q.promises)
            + (if outcome.Fulfilled? then [outcome.value] else [])
  {
  }

  /** One operation keeps the invariant and moves elements without losing any. */
  lemma StepKeepsInvariant<T>(q: State<T>, op: Op<T>)
    requires Invariant(q)
    ensures
      var q' := Step(q, op);
      && Invariant(q')
      && q'.delivered + q'.contents == q.delivered + q.contents + (if op.Enqueue? then [op.x] else [])
  {
    match op
    case Enqueue(x) => EnqueueKeepsInvariant(q, x);
    case Dequeue => DequeueKeepsInvariant(q);
    case RejectAwaiter => RejectKeepsInvariant(q);
  }

  lemma EnqueueKeepsInvariant<T>(q: State<T>, x: T)
    requires Invariant(q)
    ensures
      var q' := EnqueueStep(q, x);
      Invariant(q') && q'.delivered + q'.contents == q.delivered + q.contents + [x]
  {
    if q.awaiter.Some? {
      SettleNewest(q, Fulfilled(x));
      assert (q.contents + [x])[0] == x;
    }
  }

  lemma DequeueKeepsInvariant<T>(q: State<T>)
    requires Invariant(q)
    ensures var q' := DequeueStep(q); Invariant(q') && q'.delivered + q'.contents == q.delivered + q.contents
  {
    var q' := q.(promises := q.promises + [Pending]);
    FulfilledAppend<T>(q.promises, Pending);
    if q.contents != [] {
      SettleNewest(q', Fulfilled(q.contents[0]));
    }
  }

  lemma RejectKeepsInvariant<T>(q: State<T>)
    requires Invariant(q)
    ensures var q' := RejectStep(q); Invariant(q') && q'.delivered + q'.contents == q.delivered + q.contents
  {
    if q.awaiter.Some? {
      SettleNewest(q, Rejected);
    }
  }

  /** FIFO refinement over every run: what was delivered, followed by what is still
      stored, is what was enqueued; and the i-th promise to be fulfilled, in order of
      creation, carries the i-th enqueued element. Reconnect rejections change neither. */
  lemma {:induction false} DeliveredThenContentsIsEnqueued<T>(ops: seq<Op<T>>)
    ensures
      var q := Run(ops);
      && Invariant(q)
      && q.delivered + q.contents == Enqueued(ops)
      && FulfilledValues(q.promises) == Enqueued(ops)[..|q.delivered|]
  {
    if ops != [] {
      DeliveredThenContentsIsEnqueued(ops[..|ops| - 1]);
      StepKeepsInvariant(Run(ops[..|ops| - 1]), ops[|ops| - 1]);
    }
  }

  // ---- rejections ----

  /** From `q` to `r` the stored promise is rejected, and nothing else changes. */
  ghost predicate StoredOneRejected<T>(q: State<T>, r: State<T>) {
    && r.awaiter.None? && r.contents == q.contents && r.delivered == q.delivered && |r.promises| == |q.promises|
    && (q.awaiter.Some? ==> q.awaiter.value < |q.promises| && q.promises[q.awaiter.value].Pending?)
    && forall p: nat | p < |q.promises| ::
         r.promises[p] == if q.awaiter == Some(p) then Rejected else q.promises[p]
  }

  /** After a rejection nobody is stored, so the next element stays in the queue; whoever was
      stored has been told, and nobody else. */
  lemma RejectionRejects<T>(ops: seq<Op<T>>, x: T)
    ensures StoredOneRejected(Run(ops), Run(ops + [RejectAwaiter]))
    ensures
      var r := Run(ops + [RejectAwaiter]);
      Run(ops + [RejectAwaiter] + [Enqueue(x)]) == r.(contents := r.contents + [x])
  {
    DeliveredThenContentsIsEnqueued(ops);
    assert (ops + [RejectAwaiter])[..|ops|] == ops;
    var more := ops + [RejectAwaiter] + [Enqueue(x)];
    assert more[..|ops| + 1] == ops + [RejectAwaiter];
  }

  /** Promise `p` was the stored one when the awaiter was rejected as operation `i`. */
  ghost predicate RejectedAt<T>(ops: seq<Op<T>>, i: nat, p: nat) {
    i < |ops| && ops[i] == RejectAwaiter && Run(ops[..i]).awaiter == Some(p)
  }

  lemma RejectedAtSnoc<T>(ops: seq<Op<T>>, i: nat, p: nat)
    requires ops != [] && i < |ops| - 1
    ensures RejectedAt(ops, i, p) <==> RejectedAt(ops[..|ops| - 1], i, p)
  {
    assert ops[..|ops| - 1][..i] == ops[..i];
  }

  /** A promise is rejected exactly when it was the stored one at some rejection. */
  lemma {:induction false} RejectedIffStored<T>(ops: seq<Op<T>>, p: nat)
    ensures
      var ps := Run(ops).promises;
      p < |ps| && ps[p].Rejected? <==> exists i: nat :: RejectedAt(ops, i, p)
  {
    if ops != [] {
      var n := |ops| - 1;
      RejectedIffStored(ops[..n], p);
      DeliveredThenContentsIsEnqueued(ops[..n]);
      if i: nat :| RejectedAt(ops[..n], i, p) {
        RejectedAtSnoc(ops, i, p);
        RejectionStays(Run(ops[..n]), ops[n], p);
      } else {
        assert !exists i: nat :: RejectedAt(ops[..n], i, p);
        forall i: nat | RejectedAt(ops, i, p) ensures i == n {
          if i < n {
            RejectedAtSnoc(ops, i, p);
          }
        }
        RejectedByStep(Run(ops[..n]), ops[n], p);
        assert RejectedAt(ops, n, p) <==> ops[n] == RejectAwaiter && Run(ops[..n]).awaiter == Some(p);
      }
    }
  }

  lemma RejectionStays<T>(q: State<T>, op: Op<T>, p: nat)
    requires Invariant(q) && p < |q.promises| && q.promises[p].Rejected?
    ensures p < |Step(q, op).promises| && Step(q, op).promises[p].Rejected?
  {
  }

  lemma RejectedByStep<T>(q: State<T>, op: Op<T>, p: nat)
    requires Invariant(q) && !(p < |q.promises| && q.promises[p].Rejected?)
    ensures
      var ps := Step(q, op).promises;
      p < |ps| && ps[p].Rejected? <==> op == RejectAwaiter && q.awaiter == Some(p)
  {
  }

  /** No `dequeue` is issued while an earlier one is still waiting. */
  ghost predicate NonOverlapping<T>(ops: seq<Op<T>>) {
    forall i | 0 <= i < |ops| && ops[i].Dequeue? :: Run(ops[..i]).awaiter.None?
  }

  lemma NonOverlappingSnoc<T>(ops: seq<Op<T>>)
    requires ops != []
    ensures NonOverlapping(ops) <==>
      && NonOverlapping(ops[..|ops| - 1])
      && (ops[|ops| - 1].Dequeue? ==> Run(ops[..|ops| - 1]).awaiter.None?)
  {
    var n := |ops| - 1;
    assert forall i | 0 <= i < n :: ops[..n][..i] == ops[..i];
    if NonOverlapping(ops) {
      forall i | 0 <= i < n && ops[..n][i].Dequeue? ensures Run(ops[..n][..i]).awaiter.None? {
        assert ops[i].Dequeue?;
      }
    }
  }

  /** A consumer can be left waiting for ever with nothing stored to wake it exactly
      when some `dequeue` overlapped an earlier one. */
  lemma {:induction false} LostPromiseIffOverlap<T>(ops: seq<Op<T>>)
    ensures NoLostPromise(Run(ops)) <==> NonOverlapping(ops)
  {
    if ops != [] {
      var before, op := Run(ops[..|ops| - 1]), ops[|ops| - 1];
      LostPromiseIffOverlap(ops[..|ops| - 1]);
      DeliveredThenContentsIsEnqueued(ops[..|ops| - 1]);
      NonOverlappingSnoc(ops);
      LostStep(before, op);
    }
  }

  lemma LostStep<T>(q: State<T>, op: Op<T>)
    requires Invariant(q)
    ensures NoLostPromise(Step(q, op)) <==> NoLostPromise(q) && (op.Dequeue? ==> q.awaiter.None?)
  {
  }
}

module LinkedQueue {
  import opened Basics
  import opened QueueSpec

  class Node<T> {
    const element: T
    var prior: Node?<T>
    var next: Node?<T>

    constructor (element: T, prior: Node?<T>)
      ensures this.element == element && this.prior == prior && this.next == null
    {
      this.element, this.prior, this.next := element, prior, null;
    }
  }

  /** `next` and `prior` are each other's inverse along `ns`, and the ends are closed. */
  ghost predicate Linked<T>(ns: seq<Node<T>>)
    reads ns
  {
    && (forall i, j | 0 <= i < j < |ns| :: ns[i] != ns[j])
    && (ns != [] ==> ns[0].prior == null && ns[|ns| - 1].next == null)
    && (forall i, j | 0 <= i && j == i + 1 && j < |ns| :: ns[i].next == ns[j] && ns[j].prior == ns[i])
  }

  class Queue<T> {
    var header: Node?<T>
    var tail: Node?<T>
    // the stored callbacks, named by the promise they settle
    var dequeueResolve: Option<nat>
    var dequeueReject: Option<nat>
    var length: int
    // the promises created by `Dequeue`, and what has been handed out
    var promises: seq<Promise<T>>
    ghost var delivered: seq<T>
    ghost var settled: seq<nat>
    ghost var nodes: seq<Node<T>>

    /** The list shape. `tail` is meaningful only while `header` is set. */
    ghost predicate Shape()
      reads this, nodes
    {
      && Linked(nodes)
      && (header == null <==> nodes == [])
      && (nodes != [] ==> header == nodes[0] && tail == nodes[|nodes| - 1])
      && length == |nodes|
    }

    ghost predicate Valid()
      reads this, nodes
    {
      && Shape()
      && dequeueResolve == dequeueReject
      && (dequeueResolve.Some? ==> nodes == [])
    }

    ghost function View(): State<T>
      reads this
    {
      State(seq(|nodes|, i requires 0 <= i < |nodes| reads this => nodes[i].element),
            dequeueResolve, promises, delivered, settled)
    }

    constructor ()
      ensures Valid() && View() == Initial() && fresh(nodes)
    {
      header, tail := null, null;
      dequeueResolve, dequeueReject := None, None;
      length := 0;
      promises, delivered, settled, nodes := [], [], [], [];
    }

    method SettlePromise(p: nat, outcome: Promise<T>)
      modifies this`promises, this`settled
      ensures View() == Settle(old(View()), p, outcome)
    {
      if p < |promises| && promises[p].Pending? {
        promises := promises[p := outcome];
      }
      settled := settled + [p];
    }

    method Enqueue(element: T)
      requires Valid()
      modifies this, nodes
      ensures Valid() && fresh(set n | n in nodes && n !in old(nodes))
      ensures View() == EnqueueStep(old(View()), element)
    {
      var node := new Node(element, if header == null then null else tail);
      if header == null {
        header, tail := node, node;
      } else {
        tail := node;
      }
      if tail.prior != null {
        tail.prior.next := tail;
      }
      length := length + 1;
      nodes := nodes + [node];
      if dequeueResolve.Some? {
        ResolveDequeue();
      }
    }

    method RejectAwaiter()
      requires Valid()
      modifies this
      ensures Valid() && nodes == old(nodes)
      ensures View() == RejectStep(old(View()))
    {
      var reject := dequeueReject;
      dequeueReject := None;
      dequeueResolve := None;
      if reject.Some? {
        SettlePromise(reject.value, Rejected);
      }
    }

    method ResolveDequeue()
      requires dequeueResolve.Some? && dequeueResolve == dequeueReject
      requires Shape() && nodes != []
      modifies this, nodes
      ensures Valid() && nodes == old(nodes)[1..]
      ensures View() == Hand(old(View()).(awaiter := None), old(dequeueResolve.value))
    {
      var resolve := dequeueResolve.value;
      dequeueResolve := None;
      dequeueReject := None;
      var x := DequeueInternal();
      ghost var handed := View();
      SettlePromise(resolve, Fulfilled(x));
      assert View() == Settle(handed, resolve, Fulfilled(x));
    }

    method DequeueInternal() returns (element: T)
      requires Shape() && nodes != [] && dequeueResolve.None? && dequeueReject.None?
      modifies this`header, this`length, this`nodes, this`delivered, nodes
      ensures Valid() && nodes == old(nodes)[1..]
      ensures element == old(View()).contents[0]
      ensures View() == old(View()).(contents := old(View()).contents[1..],
                                     delivered := old(View()).delivered + [element])
    {
      var node := header;
      assert |nodes| > 1 ==> header.next == nodes[1];
      header := header.next;
      if header != null {
        header.prior := null;
      }
      length := length - 1;
      nodes := nodes[1..];
      delivered := delivered + [node.element];
      return node.element;
    }

    /** Returns the name of the new promise. */
    method Dequeue() returns (p: nat)
      requires Valid()
      modifies this, nodes
      ensures Valid() && (nodes == old(nodes) || nodes == if old(nodes) == [] then [] else old(nodes)[1..])
      ensures p == |old(promises)|
      ensures View() == DequeueStep(old(View()))
    {
      p := |promises|;
      promises := promises + [Pending];
      if header == null {
        dequeueResolve := Some(p);
        dequeueReject := Some(p);
      } else {
        var x := DequeueInternal();
        SettlePromise(p, Fulfilled(x));
      }
    }
  }
}
