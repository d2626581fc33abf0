/** BlockingConcurrentQueue: a semaphore whose permits count the elements of the inner queue.  Calls of
    the semaphore run one atomic instruction at a time (module Semaphore).  A call of the inner queue
    is one step here: an enqueue appends all its elements or fails, and a dequeue takes any number of
    the elements present, possibly none, so every outcome a race can cause is included. */
module BlockingQueue {
  import opened Sums
  import S = Semaphore

  type Tid = nat

  datatype Pc =
    | Idle
    | Enqueue(n: nat)      // about to call inner.enqueue_bulk with n elements
    | Signalling           // inside sema->signal
    | Acquiring            // inside one of the semaphore's wait functions
    | Draining(left: nat)  // the loop around inner.try_dequeue, left elements to go

  datatype State = State(sema: S.State, size: nat, pcs: seq<Pc>)

  datatype Op =
    | StartEnqueue(t: Tid, n: nat)
    | InnerEnqueue(t: Tid, ok: bool)
    | StartTry(t: Tid, max: nat)
    | StartWait(t: Tid, max: nat, timed: bool)
    | Sema(t: Tid, ok: bool)
    | Return(t: Tid)
    | InnerDequeue(t: Tid, k: nat)

  predicate InCall(pc: Pc) { pc.Signalling? || pc.Acquiring? }

  predicate Enabled(s: State, op: Op) {
    && op.t < |s.pcs| == |s.sema.pcs|
    && match op
       case StartEnqueue(t, n) => s.pcs[t].Idle?
       case InnerEnqueue(t, _) => s.pcs[t].Enqueue? && s.sema.pcs[t].Idle?
       case StartTry(t, _) => s.pcs[t].Idle? && s.sema.pcs[t].Idle?
       case StartWait(t, max, _) => s.pcs[t].Idle? && s.sema.pcs[t].Idle? && max > 0
       case Sema(t, ok) => InCall(s.pcs[t]) && S.Enabled(s.sema, S.Continue(t, ok))
       case Return(t) => InCall(s.pcs[t]) && s.sema.pcs[t].Idle?
       case InnerDequeue(t, k) => s.pcs[t].Draining? && k <= s.pcs[t].left && k <= s.size
  }

  function Drain(left: int): Pc { if left > 0 then Draining(left) else Idle }

  function Next(s: State, op: Op): State
    requires Enabled(s, op)
  {
    match op
    case StartEnqueue(t, n) => s.(pcs := s.pcs[t := Enqueue(n)])
    case InnerEnqueue(t, ok) =>
      if ok then State(S.Next(s.sema, S.Signal(t, s.pcs[t].n)), s.size + s.pcs[t].n, s.pcs[t := Signalling])
      else s.(pcs := s.pcs[t := Idle])
    case StartTry(t, max) => State(S.Next(s.sema, S.TryWait(t, max)), s.size, s.pcs[t := Acquiring])
    case StartWait(t, max, timed) => State(S.Next(s.sema, S.Wait(t, max, timed)), s.size, s.pcs[t := Acquiring])
    case Sema(t, ok) => s.(sema := S.Next(s.sema, S.Continue(t, ok)))
    case Return(t) =>
      s.(pcs := s.pcs[t := if s.pcs[t].Signalling? then Idle else Drain(s.sema.pcs[t].result)])
    case InnerDequeue(t, k) => s.(size := s.size - k, pcs := s.pcs[t := Drain(s.pcs[t].left - k)])
  }

  // ---------------------------------------------------------------------------------------------
  // The invariant
  // ---------------------------------------------------------------------------------------------

  /** A thread as the balance sees it: its place in the queue's code, its place in the semaphore's
      code, and the units it has acquired in its latest semaphore call. */
  datatype Thread = Thread(pc: Pc, sema: S.Pc, mine: int)

  function Threads(s: State, v: S.View): seq<Thread>
    requires |s.pcs| == |s.sema.pcs| == |v.mine|
  {
    seq(|s.pcs|, t requires 0 <= t < |s.pcs| => Thread(s.pcs[t], s.sema.pcs[t], v.mine[t]))
  }

  /** Permits a thread holds for elements it has not dequeued yet. */
  function Held(x: Thread): int {
    if x.pc.Acquiring? then x.mine else if x.pc.Draining? then x.pc.left else 0
  }

  /** Elements a thread has enqueued and not yet added to the count of the semaphore. */
  function Unsignalled(x: Thread): int { if x.sema.Add? then x.sema.n else 0 }

  predicate ThreadOk(x: Thread) {
    && (x.sema.Add? || x.sema.Release? ==> x.pc.Signalling?)
    && (!x.sema.Idle? && !x.sema.Add? && !x.sema.Release? ==> x.pc.Acquiring?)
  }

  ghost predicate Inv(s: State, v: S.View) {
    && |s.pcs| == |s.sema.pcs| && S.Inv(s.sema, v)
    && (forall x :: x in Threads(s, v) ==> ThreadOk(x))
    && s.size == v.supplied - v.acquired + Sum(Threads(s, v), Held) + Sum(Threads(s, v), Unsignalled)
  }

  function SemaOp(s: State, op: Op): S.Op
    requires Enabled(s, op)
  {
    match op
    case InnerEnqueue(t, _) => S.Signal(t, s.pcs[t].n)
    case StartTry(t, max) => S.TryWait(t, max)
    case StartWait(t, max, timed) => S.Wait(t, max, timed)
    case _ => S.Continue(op.t, op.Sema? && op.ok)
  }

  predicate MovesSema(op: Op) { (op.InnerEnqueue? && op.ok) || op.StartTry? || op.StartWait? || op.Sema? }

  function NextView(s: State, v: S.View, op: Op): S.View
    requires Enabled(s, op) && |v.mine| == |s.sema.pcs|
  {
    if MovesSema(op) then S.NextView(s.sema, v, SemaOp(s, op)) else v
  }

  /** The place of op's thread after the step. */
  function Moved(s: State, v: S.View, op: Op): Thread
    requires Enabled(s, op) && |v.mine| == |s.pcs|
  {
    Thread(Next(s, op).pcs[op.t], Next(s, op).sema.pcs[op.t], NextView(s, v, op).mine[op.t])
  }

  lemma OthersStay(s: State, v: S.View, op: Op)
    requires Enabled(s, op) && |v.mine| == |s.pcs|
    ensures Threads(Next(s, op), NextView(s, v, op)) == Threads(s, v)[op.t := Moved(s, v, op)]
  {
    if op.Sema? { S.LocalShape(s.sema, op.t, op.ok); }
  }

  /** A step changes the balance only through its own thread. */
  ghost predicate Balanced(s: State, v: S.View, op: Op)
    requires Enabled(s, op) && |v.mine| == |s.pcs|
  {
    var x, x', v' := Threads(s, v)[op.t], Moved(s, v, op), NextView(s, v, op);
    && ThreadOk(x')
    && Next(s, op).size - s.size ==
       v'.supplied - v.supplied - (v'.acquired - v.acquired) + Held(x') - Held(x) + Unsignalled(x') - Unsignalled(x)
  }

  lemma SemaBalanced(s: State, v: S.View, t: Tid, ok: bool)
    requires Enabled(s, Sema(t, ok)) && |v.mine| == |s.pcs| && ThreadOk(Threads(s, v)[t])
    ensures Balanced(s, v, Sema(t, ok))
  {
    match s.sema.pcs[t]
    case Add(n) =>
    case Release(n) =>
    case TryLoad(max, k) =>
    case TryCas(max, seen, k) =>
    case _ =>
  }

  lemma OtherBalanced(s: State, v: S.View, op: Op)
    requires Enabled(s, op) && !op.Sema? && |v.mine| == |s.pcs| && ThreadOk(Threads(s, v)[op.t])
    requires S.PcOk(s.sema.pcs[op.t], v.mine[op.t])
    ensures Balanced(s, v, op)
  {
    match op
    case StartEnqueue(t, n) =>
    case InnerEnqueue(t, ok) =>
    case Return(t) =>
    case _ =>
  }

  lemma StepKeepsInv(s: State, v: S.View, op: Op)
    requires Inv(s, v) && Enabled(s, op)
    ensures Inv(Next(s, op), NextView(s, v, op))
  {
    var xs, x', t := Threads(s, v), Moved(s, v, op), op.t;
    if MovesSema(op) { S.StepKeepsInv(s.sema, v, SemaOp(s, op)); }
    assert xs[t] in xs && S.PcOk(s.sema.pcs[t], v.mine[t]);
    if op.Sema? { SemaBalanced(s, v, t, op.ok); } else { OtherBalanced(s, v, op); }
    OthersStay(s, v, op);
    forall x | x in xs[t := x'] ensures ThreadOk(x) {
      if x != x' { assert x in xs; }
    }
    SumUpdate(xs, Held, t, x');
    SumUpdate(xs, Unsignalled, t, x');
  }

  // ---------------------------------------------------------------------------------------------
  // Runs
  // ---------------------------------------------------------------------------------------------

  predicate Initial(s: State) {
    && S.Initial(s.sema) && s.sema.count == 0 && s.size == 0 && |s.pcs| == |s.sema.pcs|
    && forall t :: 0 <= t < |s.pcs| ==> s.pcs[t].Idle?
  }

  predicate Step(s: State, op: Op, s': State) { Enabled(s, op) && s' == Next(s, op) }

  ghost predicate Run(b: seq<State>, ops: seq<Op>) {
    && |b| == |ops| + 1 && Initial(b[0])
    && forall i {:trigger ops[i]} :: 0 <= i < |ops| ==> Step(b[i], ops[i], b[i + 1])
  }

  lemma InitialInv(s: State) returns (v: S.View)
    requires Initial(s)
    ensures Inv(s, v)
  {
    v := S.View(0, 0, seq(|s.pcs|, _ => 0));
    SumZero(s.sema.pcs, S.Waits);
    SumZero(s.sema.pcs, S.Owes);
    SumZero(Threads(s, v), Held);
    SumZero(Threads(s, v), Unsignalled);
  }

  lemma RunStep(b: seq<State>, ops: seq<Op>, n: nat, v: S.View) returns (v': S.View)
    requires Run(b, ops) && 0 < n < |b| && Inv(b[n - 1], v)
    ensures Inv(b[n], v')
  {
    assert Step(b[n - 1], ops[n - 1], b[n]);
    StepKeepsInv(b[n - 1], v, ops[n - 1]);
    v' := NextView(b[n - 1], v, ops[n - 1]);
  }

  lemma RunKeepsInv(b: seq<State>, ops: seq<Op>, n: nat) returns (v: S.View)
    requires Run(b, ops) && n < |b|
    ensures Inv(b[n], v)
  {
    v := InitialInv(b[0]);
    for k := 0 to n
      invariant Inv(b[k], v)
    {
      v := RunStep(b, ops, k + 1, v);
    }
  }

  /** Permits nobody has taken: in the count, in the kernel, or owed by a signal under way. */
  function Available(s: State): int { S.Max(0, s.sema.count) + s.sema.kernel + Sum(s.sema.pcs, S.Owes) }

  /** In every reachable state the inner queue holds exactly one element per available permit, per
      permit held by a consumer, and per element whose enqueuer has not signalled yet. */
  lemma ElementsMatchPermits(b: seq<State>, ops: seq<Op>, n: nat) returns (v: S.View)
    requires Run(b, ops) && n < |b|
    ensures |v.mine| == |b[n].pcs| == |b[n].sema.pcs|
    ensures forall t :: 0 <= t < |b[n].pcs| ==> S.PcOk(b[n].sema.pcs[t], v.mine[t])
    ensures b[n].size == Available(b[n]) + Sum(Threads(b[n], v), Held) + Sum(Threads(b[n], v), Unsignalled)
  {
    v := RunKeepsInv(b, ops, n);
  }

  /** The elements a consumer in the loop around inner.try_dequeue still wants. */
  function Left(pc: Pc): int { if pc.Draining? then pc.left else 0 }

  /** All consumers in their retry loops together have their elements reserved in the inner queue, so
      none of them ever waits for an element that is not there. */
  lemma NeverSpinsOnNothing(b: seq<State>, ops: seq<Op>, n: nat)
    requires Run(b, ops) && n < |b|
    ensures b[n].size >= Sum(b[n].pcs, Left)
    ensures forall t :: 0 <= t < |b[n].pcs| && b[n].pcs[t].Draining? ==> Enabled(b[n], InnerDequeue(t, b[n].pcs[t].left))
  {
    var v := RunKeepsInv(b, ops, n);
    HeldNonNegative(b[n], v);
    SumMono(b[n].pcs, Left, Threads(b[n], v), Held);
    SumNonNegative(b[n].pcs, Left);
  }

  lemma HeldNonNegative(s: State, v: S.View)
    requires Inv(s, v)
    ensures forall t :: 0 <= t < |s.pcs| ==> Held(Threads(s, v)[t]) >= Left(s.pcs[t])
    ensures Sum(Threads(s, v), Unsignalled) >= 0 && Sum(s.sema.pcs, S.Owes) >= 0
  {
    forall t | 0 <= t < |s.pcs| ensures Held(Threads(s, v)[t]) >= Left(s.pcs[t]) && S.Owes(s.sema.pcs[t]) >= 0 {
      assert S.PcOk(s.sema.pcs[t], v.mine[t]);
    }
    SumNonNegative(Threads(s, v), Unsignalled);
    SumNonNegative(s.sema.pcs, S.Owes);
  }

  ghost predicate AllIdle(s: State) {
    |s.pcs| == |s.sema.pcs| && forall t :: 0 <= t < |s.pcs| ==> s.pcs[t].Idle? && s.sema.pcs[t].Idle?
  }

  /** With every thread between calls, size_approx is the size of the inner queue. */
  lemma QuiescentSize(b: seq<State>, ops: seq<Op>, n: nat)
    requires Run(b, ops) && n < |b| && AllIdle(b[n])
    ensures b[n].size == b[n].sema.count >= 0 && b[n].sema.kernel == 0
  {
    var v := RunKeepsInv(b, ops, n);
    SumZero(Threads(b[n], v), Held);
    SumZero(Threads(b[n], v), Unsignalled);
    SumZero(b[n].sema.pcs, S.Waits);
    SumZero(b[n].sema.pcs, S.Owes);
  }

  // ---------------------------------------------------------------------------------------------
  // What the calls ask for, and what they get
  // ---------------------------------------------------------------------------------------------

  /** The latest call of a thread: the elements to enqueue, or the most to dequeue, and those dequeued. */
  datatype Call = Call(n: nat, max: nat, taken: nat)

  function After(c: Call, op: Op, t: Tid): Call {
    if op.t != t then c
    else
      match op
      case StartEnqueue(_, n) => Call(n, 0, 0)
      case StartTry(_, max) => Call(0, max, 0)
      case StartWait(_, max, _) => Call(0, max, 0)
      case InnerDequeue(_, k) => c.(taken := c.taken + k)
      case _ => c
  }

  function CallOf(ops: seq<Op>, t: Tid, n: nat): Call
    requires n <= |ops|
  { if n == 0 then Call(0, 0, 0) else After(CallOf(ops, t, n - 1), ops[n - 1], t) }

  /** The elements of all calls whose inner enqueue has succeeded, and the elements dequeued. */
  function Enqueued(ops: seq<Op>, n: nat): nat
    requires n <= |ops|
  {
    if n == 0 then 0
    else Enqueued(ops, n - 1) + if ops[n - 1].InnerEnqueue? && ops[n - 1].ok then CallOf(ops, ops[n - 1].t, n - 1).n else 0
  }

  function Dequeued(ops: seq<Op>, n: nat): nat
    requires n <= |ops|
  { if n == 0 then 0 else Dequeued(ops, n - 1) + if ops[n - 1].InnerDequeue? then ops[n - 1].k else 0 }

  /** A thread does what its latest call asks for. */
  predicate CallOk(pc: Pc, sema: S.Pc, c: Call) {
    match pc
    case Idle => c.taken <= c.max && (c.max > 0 ==> sema.Idle? && c.taken == sema.result)
    case Enqueue(n) => n == c.n && c.taken == c.max == 0
    case Signalling => c.taken == c.max == 0
    case Acquiring => c.taken == 0 && S.Within(sema, c.max) && !sema.Add? && !sema.Release?
    case Draining(left) => sema.Idle? && c.taken + left == sema.result <= c.max
  }

  lemma StepCallOk(s: State, op: Op, t: Tid, c: Call)
    requires Enabled(s, op) && t < |s.pcs| && CallOk(s.pcs[t], s.sema.pcs[t], c)
    ensures CallOk(Next(s, op).pcs[t], Next(s, op).sema.pcs[t], After(c, op, t))
  {
    if op.Sema? {
      S.LocalShape(s.sema, op.t, op.ok);
      if op.t == t && s.pcs[t].Acquiring? { S.StaysWithin(s.sema, t, op.ok, c.max); }
    }
  }

  lemma {:induction false} CallsOk(b: seq<State>, ops: seq<Op>, n: nat, t: Tid)
    requires Run(b, ops) && n < |b| && t < |b[n].pcs|
    ensures |b[n].pcs| == |b[n].sema.pcs| && CallOk(b[n].pcs[t], b[n].sema.pcs[t], CallOf(ops, t, n))
    decreases n
  {
    if n > 0 {
      assert Step(b[n - 1], ops[n - 1], b[n]);
      CallsOk(b, ops, n - 1, t);
      StepCallOk(b[n - 1], ops[n - 1], t, CallOf(ops, t, n - 1));
    }
  }

  /** A call never dequeues more elements than it was asked for, and when it has returned, exactly as many
      as the semaphore has granted it. */
  lemma DequeuesWithinMax(b: seq<State>, ops: seq<Op>, n: nat, t: Tid)
    requires Run(b, ops) && n < |b| && t < |b[n].pcs|
    ensures CallOf(ops, t, n).taken <= CallOf(ops, t, n).max
    ensures b[n].pcs[t].Idle? && CallOf(ops, t, n).max > 0 ==>
      t < |b[n].sema.pcs| && b[n].sema.pcs[t].Idle? && CallOf(ops, t, n).taken == b[n].sema.pcs[t].result
  {
    CallsOk(b, ops, n, t);
  }

  /** In every run the inner queue holds what the successful enqueue calls were given, less what has been
      dequeued. */
  lemma {:induction false} SizeIsEnqueuedLessDequeued(b: seq<State>, ops: seq<Op>, n: nat)
    requires Run(b, ops) && n < |b|
    ensures b[n].size == Enqueued(ops, n) - Dequeued(ops, n)
    decreases n
  {
    if n > 0 {
      SizeIsEnqueuedLessDequeued(b, ops, n - 1);
      assert Step(b[n - 1], ops[n - 1], b[n]);
      CallsOk(b, ops, n - 1, ops[n - 1].t);
    }
  }

  // ---------------------------------------------------------------------------------------------
  // One call alone
  // ---------------------------------------------------------------------------------------------

  /** Thread t alone performs up to k instructions inside the semaphore. */
  function SemaAlone(s: State, t: Tid, k: nat): State
    decreases k
  { if k == 0 || !Enabled(s, Sema(t, true)) then s else SemaAlone(Next(s, Sema(t, true)), t, k - 1) }

  lemma {:induction false} SemaAloneIs(s: State, t: Tid, k: nat)
    requires t < |s.pcs| == |s.sema.pcs| && InCall(s.pcs[t])
    ensures SemaAlone(s, t, k) == s.(sema := S.Solo(s.sema, t, true, k))
    decreases k
  {
    if k > 0 && Enabled(s, Sema(t, true)) {
      S.LocalShape(s.sema, t, true);
      SemaAloneIs(Next(s, Sema(t, true)), t, k - 1);
    }
  }

  /** enqueue_bulk: the call, the inner enqueue, n + 1 instructions of the signal, and the return. */
  function EnqueueAlone(s: State, t: Tid, n: nat): State
    requires Enabled(s, StartEnqueue(t, n)) && s.sema.pcs[t].Idle?
  {
    var s' := SemaAlone(Next(Next(s, StartEnqueue(t, n)), InnerEnqueue(t, true)), t, n + 1);
    if Enabled(s', Return(t)) then Next(s', Return(t)) else s'
  }

  /** Alone, a call of enqueue_bulk adds its n elements and n units, and wakes as many waiters. */
  lemma EnqueueAdds(s: State, t: Tid, n: nat)
    requires Enabled(s, StartEnqueue(t, n)) && s.sema.pcs[t].Idle?
    ensures EnqueueAlone(s, t, n) ==
      s.(size := s.size + n,
         sema := S.State(s.sema.count + n, s.sema.kernel + Min(S.Max(0, -s.sema.count), n), s.sema.pcs[t := S.Idle(0)]))
  {
    var s1 := Next(Next(s, StartEnqueue(t, n)), InnerEnqueue(t, true));
    SemaAloneIs(s1, t, n + 1);
    S.SignalAlone(s.sema, t, n);
    assert s.pcs[t := Idle] == s.pcs;
  }

  /** A call whose inner enqueue fails leaves everything as it was. */
  lemma EnqueueFails(s: State, t: Tid, n: nat)
    requires Enabled(s, StartEnqueue(t, n)) && s.sema.pcs[t].Idle?
    ensures Enabled(Next(s, StartEnqueue(t, n)), InnerEnqueue(t, false))
    ensures Next(Next(s, StartEnqueue(t, n)), InnerEnqueue(t, false)) == s
  {
    assert s.pcs[t := Idle] == s.pcs;
  }

  /** try_dequeue_bulk or wait_dequeue_bulk when there are units: the call, the semaphore, the return, and
      one try of the inner queue for all that was granted. */
  function DequeueAlone(s: State, op: Op): State
    requires (op.StartTry? || op.StartWait?) && Enabled(s, op)
  {
    var s1 := SemaAlone(Next(s, op), op.t, 2);
    var s2 := if Enabled(s1, Return(op.t)) then Next(s1, Return(op.t)) else s1;
    if s2.pcs[op.t].Draining? && Enabled(s2, InnerDequeue(op.t, s2.pcs[op.t].left)) then Next(s2, InnerDequeue(op.t, s2.pcs[op.t].left)) else s2
  }

  /** Alone, a dequeue takes the lesser of max and the units there are, and as many elements. */
  lemma DequeueTakes(s: State, op: Op)
    requires (op.StartTry? || (op.StartWait? && s.sema.count > 0)) && Enabled(s, op) && s.sema.count <= s.size
    ensures var m := S.Takes(s.sema, op.max);
      DequeueAlone(s, op) == s.(size := s.size - m, sema := s.sema.(count := s.sema.count - m, pcs := s.sema.pcs[op.t := S.Idle(m)]))
  {
    SemaAloneIs(Next(s, op), op.t, 2);
    if op.StartTry? { S.TryAlone(s.sema, op.t, op.max); } else { S.WaitAlone(s.sema, op.t, op.max, op.timed); }
    assert s.pcs[op.t := Idle] == s.pcs;
  }

  /** In every reachable state the elements that the count promises are there. */
  lemma CountIsThere(b: seq<State>, ops: seq<Op>, n: nat)
    requires Run(b, ops) && n < |b|
    ensures b[n].sema.count <= b[n].size
  {
    var v := RunKeepsInv(b, ops, n);
    HeldNonNegative(b[n], v);
    SumMono(b[n].pcs, Left, Threads(b[n], v), Held);
    SumNonNegative(b[n].pcs, Left);
  }

  /** With every thread between calls, a dequeue takes the lesser of max and the number of elements. */
  lemma QuiescentDequeue(b: seq<State>, ops: seq<Op>, n: nat, t: Tid, max: nat)
    requires Run(b, ops) && n < |b| && AllIdle(b[n]) && t < |b[n].pcs|
    ensures Enabled(b[n], StartTry(t, max)) && b[n].size >= 0
    ensures DequeueAlone(b[n], StartTry(t, max)).size == b[n].size - Min(max, b[n].size)
  {
    QuiescentSize(b, ops, n);
    DequeueTakes(b[n], StartTry(t, max));
  }

  // ---------------------------------------------------------------------------------------------
  // The blocking queue in place
  // ---------------------------------------------------------------------------------------------

  class BlockingConcurrentQueue {
    const sema: S.LightweightSemaphore
    var inner: nat
    var pcs: seq<Pc>

    ghost function Snapshot(): State
      reads this, sema
    {
      State(sema.Snapshot(), inner, pcs)
    }

    constructor (threads: nat)
      ensures Initial(Snapshot()) && |pcs| == threads && fresh(sema)
    {
      sema := new S.LightweightSemaphore(0, threads);
      inner := 0;
      pcs := seq(threads, _ => Idle);
    }

    /** enqueue and enqueue_bulk: signal only after a successful inner enqueue. */
    method EnqueueStep(t: Tid, ok: bool)
      requires Enabled(Snapshot(), InnerEnqueue(t, ok))
      modifies this, sema
      ensures Step(old(Snapshot()), InnerEnqueue(t, ok), Snapshot())
    {
      if ok {
        var n := pcs[t].n;
        inner := inner + n;
        sema.Start(S.Signal(t, n));
        pcs := pcs[t := Signalling];
      } else {
        pcs := pcs[t := Idle];
      }
    }

    /** The next instruction inside the semaphore. */
    method SemaStep(t: Tid, ok: bool)
      requires Enabled(Snapshot(), Sema(t, ok))
      modifies sema
      ensures Step(old(Snapshot()), Sema(t, ok), Snapshot())
    {
      var pc := sema.pcs[t];
      if pc.TryLoad? || pc.TryCas? || pc.SpinLoad? || pc.SpinCas? {
        sema.TryStep(t, ok);
      } else if pc.Add? || pc.Release? {
        sema.SignalStep(t, ok);
      } else {
        sema.WaitStep(t, ok);
      }
    }

    /** Start of a call, return from the semaphore, or a try of the inner queue. */
    method QueueStep(op: Op)
      requires Enabled(Snapshot(), op) && !op.Sema? && !op.InnerEnqueue?
      modifies this, sema
      ensures Step(old(Snapshot()), op, Snapshot())
    {
      match op {
        case StartEnqueue(t, n) => pcs := pcs[t := Enqueue(n)];
        case StartTry(t, max) =>
          sema.Start(S.TryWait(t, max));
          pcs := pcs[t := Acquiring];
        case StartWait(t, max, timed) =>
          sema.Start(S.Wait(t, max, timed));
          pcs := pcs[t := Acquiring];
        case Return(t) =>
          if pcs[t].Signalling? {
            pcs := pcs[t := Idle];
          } else {
            pcs := pcs[t := Drain(sema.pcs[t].result)];
          }
        case InnerDequeue(t, k) =>
          inner := inner - k;
          pcs := pcs[t := Drain(pcs[t].left - k)];
      }
    }
  }
}
