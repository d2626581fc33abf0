/** LightweightSemaphore: a signed count in user space in front of a kernel semaphore.  Each load,
    compare_exchange, fetch_add and kernel call is one step; the kernel semaphore is a counter whose
    wait and try_wait are atomic and whose timed wait may time out at any moment.

    wait is waitMany with max == 1, and tryWait is tryWaitMany with max == 1. */
module Semaphore {
  import opened Sums

  type Tid = nat

  const SPINS: nat := 10000

  /** Who called tryWaitMany: a caller, waitMany before spinning, or waitMany after it got one. */
  datatype Cont = Alone | ThenSpin(timed: bool) | ThenAddOne

  datatype Pc =
    | Idle(result: int)                                   // the value returned last
    | TryLoad(max: nat, k: Cont)                          // tryWaitMany: load m_count
    | TryCas(max: nat, seen: int, k: Cont)                 //   compare_exchange_weak
    | SpinLoad(max: nat, timed: bool, spin: nat)          // partial spinning: load m_count
    | SpinCas(max: nat, timed: bool, seen: int, spin: nat) //   compare_exchange_strong
    | Subtract(max: nat, timed: bool)                     // m_count.fetch_sub(1)
    | Sleep(max: nat, timed: bool)                        // m_sema.wait or timed_wait
    | Undo(max: nat)                                      // timed out: load m_count
    | UndoTry(max: nat)                                   //   m_sema.try_wait
    | UndoCas(max: nat, seen: int)                         //   compare_exchange old -> old + 1
    | Add(n: nat)                                         // signal: m_count.fetch_add(n)
    | Release(n: nat)                                     //   n posts of the kernel semaphore left

  datatype State = State(count: int, kernel: nat, pcs: seq<Pc>)

  /** Continue's flag decides what the environment decides: whether a weak compare_exchange may
      succeed, and whether a timed sleeper gets a kernel token (true) or times out (false). */
  datatype Op = TryWait(t: Tid, max: nat) | Wait(t: Tid, max: nat, timed: bool) | Signal(t: Tid, n: nat) | Continue(t: Tid, ok: bool)

  predicate Enabled(s: State, op: Op) {
    && op.t < |s.pcs|
    && match op
       case TryWait(t, _) => s.pcs[t].Idle?
       case Wait(t, max, _) => s.pcs[t].Idle? && max > 0
       case Signal(t, _) => s.pcs[t].Idle?
       case Continue(t, ok) =>
         && !s.pcs[t].Idle?
         && (s.pcs[t].Sleep? ==> if ok then s.kernel > 0 else s.pcs[t].timed)
  }

  function Max(a: int, b: int): int { if a < b then b else a }

  /** tryWaitMany is left with got units. */
  function Tried(max: nat, got: int, k: Cont): Pc {
    match k
    case Alone => Idle(got)
    case ThenAddOne => Idle(1 + got)
    case ThenSpin(timed) => if got == 0 && max > 0 then Spinning(max, timed, SPINS) else Idle(got)
  }

  /** The loop of tryWaitMany with local variable oldCount == seen. */
  function Trying(max: nat, seen: int, k: Cont): Pc {
    if seen > 0 then TryCas(max, seen, k) else Tried(max, 0, k)
  }

  function Spinning(max: nat, timed: bool, spin: nat): Pc {
    if spin > 0 then SpinLoad(max, timed, spin - 1) else Subtract(max, timed)
  }

  /** waitMany has got one unit after waiting and may take more. */
  function GotOne(max: nat): Pc { if max > 1 then TryLoad(max - 1, ThenAddOne) else Idle(1) }

  function NewCount(seen: int, max: nat): int { if seen > max then seen - max else 0 }

  function Next(s: State, op: Op): State
    requires Enabled(s, op)
  {
    match op
    case TryWait(t, max) => s.(pcs := s.pcs[t := TryLoad(max, Alone)])
    case Wait(t, max, timed) => s.(pcs := s.pcs[t := TryLoad(max, ThenSpin(timed))])
    case Signal(t, n) => s.(pcs := s.pcs[t := Add(n)])
    case Continue(t, ok) => Perform(s, t, ok)
  }

  function Perform(s: State, t: Tid, ok: bool): State
    requires Enabled(s, Continue(t, ok))
  {
    match s.pcs[t]
    case TryLoad(max, k) => s.(pcs := s.pcs[t := Trying(max, s.count, k)])
    case TryCas(max, seen, k) =>
      if ok && s.count == seen
      then State(NewCount(seen, max), s.kernel, s.pcs[t := Tried(max, seen - NewCount(seen, max), k)])
      else s.(pcs := s.pcs[t := Trying(max, s.count, k)])
    case SpinLoad(max, timed, spin) =>
      s.(pcs := s.pcs[t := if s.count > 0 then SpinCas(max, timed, s.count, spin) else Spinning(max, timed, spin)])
    case SpinCas(max, timed, seen, spin) =>
      if s.count == seen
      then State(NewCount(seen, max), s.kernel, s.pcs[t := Idle(seen - NewCount(seen, max))])
      else s.(pcs := s.pcs[t := Spinning(max, timed, spin)])
    case Subtract(max, timed) =>
      State(s.count - 1, s.kernel, s.pcs[t := if s.count > 0 then GotOne(max) else Sleep(max, timed)])
    case Sleep(max, timed) =>
      if ok then State(s.count, s.kernel - 1, s.pcs[t := GotOne(max)])
      else s.(pcs := s.pcs[t := Undo(max)])
    case Undo(max) =>
      s.(pcs := s.pcs[t := if s.count >= 0 then UndoTry(max) else UndoCas(max, s.count)])
    case UndoTry(max) =>
      if s.kernel > 0 then State(s.count, s.kernel - 1, s.pcs[t := GotOne(max)])
      else s.(pcs := s.pcs[t := Undo(max)])
    case UndoCas(max, seen) =>
      if s.count == seen then State(seen + 1, s.kernel, s.pcs[t := Idle(0)])
      else s.(pcs := s.pcs[t := Undo(max)])
    case Add(n) =>
      State(s.count + n, s.kernel, s.pcs[t := if Min(-s.count, n) > 0 then Release(Min(-s.count, n)) else Idle(0)])
    case Release(n) =>
      State(s.count, s.kernel + 1, s.pcs[t := if n > 1 then Release(n - 1) else Idle(0)])
  }

  // ---------------------------------------------------------------------------------------------
  // The invariant
  // ---------------------------------------------------------------------------------------------

  /** Totals over the history: the units acquired by calls, the units supplied by the constructor and
      by signal, and what each thread has acquired in its latest call. */
  datatype View = View(acquired: int, supplied: int, mine: seq<int>)

  /** A thread whose fetch_sub found no unit and which has neither got one nor undone it. */
  function Waits(pc: Pc): int { if pc.Sleep? || pc.Undo? || pc.UndoTry? || pc.UndoCas? then 1 else 0 }

  /** Kernel posts a signal still owes. */
  function Owes(pc: Pc): int { if pc.Release? then pc.n else 0 }

  /** What a thread has acquired so far in its call, and the shape of its local variables. */
  predicate PcOk(pc: Pc, mine: int) {
    match pc
    case Idle(result) => result == mine >= 0
    case TryLoad(_, k) => mine == if k.ThenAddOne? then 1 else 0
    case TryCas(_, seen, k) => seen > 0 && mine == if k.ThenAddOne? then 1 else 0
    case SpinLoad(max, _, _) => mine == 0 && max > 0
    case SpinCas(max, _, seen, _) => seen > 0 && mine == 0 && max > 0
    case Subtract(max, _) => mine == 0 && max > 0
    case Sleep(max, _) => mine == 0 && max > 0
    case Undo(max) => mine == 0 && max > 0
    case UndoTry(max) => mine == 0 && max > 0
    case UndoCas(max, seen) => mine == 0 && max > 0 && seen < 0
    case Add(_) => mine == 0
    case Release(n) => n > 0 && mine == 0
  }

  ghost predicate Inv(s: State, v: View) {
    && |v.mine| == |s.pcs|
    && (forall t :: 0 <= t < |s.pcs| ==> PcOk(s.pcs[t], v.mine[t]))
    && Sum(s.pcs, Waits) == s.kernel + Sum(s.pcs, Owes) + Max(0, -s.count)
    && s.count + Sum(s.pcs, Waits) + v.acquired == v.supplied
  }

  /** The units thread t acquires by its next instruction. */
  function Gain(s: State, t: Tid, ok: bool): int
    requires Enabled(s, Continue(t, ok))
  {
    match s.pcs[t]
    case TryCas(max, seen, _) => if ok && s.count == seen then seen - NewCount(seen, max) else 0
    case SpinCas(max, _, seen, _) => if s.count == seen then seen - NewCount(seen, max) else 0
    case Subtract(_, _) => if s.count > 0 then 1 else 0
    case Sleep(_, _) => if ok then 1 else 0
    case UndoTry(_) => if s.kernel > 0 then 1 else 0
    case _ => 0
  }

  function NextView(s: State, v: View, op: Op): View
    requires Enabled(s, op) && |v.mine| == |s.pcs|
  {
    match op
    case Continue(t, ok) =>
      var gain := Gain(s, t, ok);
      View(v.acquired + gain, v.supplied + (if s.pcs[t].Add? then s.pcs[t].n else 0), v.mine[t := v.mine[t] + gain])
    case _ => v.(mine := v.mine[op.t := 0])
  }

  // ---------------------------------------------------------------------------------------------
  // Preservation
  // ---------------------------------------------------------------------------------------------

  /** An instruction moves only the program counter of its own thread. */
  lemma LocalShape(s: State, t: Tid, ok: bool)
    requires Enabled(s, Continue(t, ok))
    ensures Perform(s, t, ok).pcs == s.pcs[t := Perform(s, t, ok).pcs[t]]
  {
  }

  /** What an instruction of t does to its own position. */
  lemma LocalPc(s: State, t: Tid, ok: bool, mine: int)
    requires Enabled(s, Continue(t, ok)) && PcOk(s.pcs[t], mine)
    ensures PcOk(Perform(s, t, ok).pcs[t], mine + Gain(s, t, ok))
  {
    match s.pcs[t]
    case TryLoad(max, k) =>
    case TryCas(max, seen, k) =>
    case _ =>
  }

  /** What it does to the count of waiters, tokens and owed posts. */
  lemma LocalWaiters(s: State, t: Tid, ok: bool, mine: int)
    requires Enabled(s, Continue(t, ok)) && PcOk(s.pcs[t], mine)
    ensures var s' := Perform(s, t, ok);
            Waits(s'.pcs[t]) - Waits(s.pcs[t]) ==
            s'.kernel - s.kernel + Owes(s'.pcs[t]) - Owes(s.pcs[t]) + Max(0, -s'.count) - Max(0, -s.count)
  {
    match s.pcs[t]
    case TryLoad(max, k) =>
    case TryCas(max, seen, k) =>
    case _ =>
  }

  /** What it does to the permits. */
  lemma LocalPermits(s: State, t: Tid, ok: bool, mine: int)
    requires Enabled(s, Continue(t, ok)) && PcOk(s.pcs[t], mine)
    ensures var s' := Perform(s, t, ok);
            s'.count - s.count + Waits(s'.pcs[t]) - Waits(s.pcs[t]) + Gain(s, t, ok) ==
            if s.pcs[t].Add? then s.pcs[t].n else 0
  {
    match s.pcs[t]
    case TryLoad(max, k) =>
    case TryCas(max, seen, k) =>
    case _ =>
  }

  lemma ContinueKeepsInv(s: State, v: View, t: Tid, ok: bool)
    requires Inv(s, v) && Enabled(s, Continue(t, ok))
    ensures Inv(Perform(s, t, ok), NextView(s, v, Continue(t, ok)))
  {
    var s' := Perform(s, t, ok);
    assert PcOk(s.pcs[t], v.mine[t]);
    LocalShape(s, t, ok);
    LocalPc(s, t, ok, v.mine[t]);
    LocalWaiters(s, t, ok, v.mine[t]);
    LocalPermits(s, t, ok, v.mine[t]);
    SumUpdate(s.pcs, Waits, t, s'.pcs[t]);
    SumUpdate(s.pcs, Owes, t, s'.pcs[t]);
  }

  lemma StartKeepsInv(s: State, v: View, op: Op)
    requires Inv(s, v) && Enabled(s, op) && !op.Continue?
    ensures Inv(Next(s, op), NextView(s, v, op))
  {
    var s', t := Next(s, op), op.t;
    assert PcOk(s.pcs[t], v.mine[t]);
    SumUpdate(s.pcs, Waits, t, s'.pcs[t]);
    SumUpdate(s.pcs, Owes, t, s'.pcs[t]);
  }

  /** Every step of every thread keeps the balances. */
  lemma StepKeepsInv(s: State, v: View, op: Op)
    requires Inv(s, v) && Enabled(s, op)
    ensures Inv(Next(s, op), NextView(s, v, op))
  {
    if op.Continue? { ContinueKeepsInv(s, v, op.t, op.ok); } else { StartKeepsInv(s, v, op); }
  }

  // ---------------------------------------------------------------------------------------------
  // Runs
  // ---------------------------------------------------------------------------------------------

  predicate Initial(s: State) {
    s.count >= 0 && s.kernel == 0 && forall t :: 0 <= t < |s.pcs| ==> s.pcs[t] == Idle(0)
  }

  predicate Step(s: State, op: Op, s': State) { Enabled(s, op) && s' == Next(s, op) }

  ghost predicate Run(b: seq<State>, ops: seq<Op>) {
    && |b| == |ops| + 1 && Initial(b[0])
    && forall i {:trigger ops[i]} :: 0 <= i < |ops| ==> Step(b[i], ops[i], b[i + 1])
  }

  /** The units acquired by the first n events, and those supplied before and by them. */
  ghost function Acquired(b: seq<State>, ops: seq<Op>, n: nat): int
    requires Run(b, ops) && n < |b|
  {
    if n == 0 then 0
    else
      assert Step(b[n - 1], ops[n - 1], b[n]);
      var op := ops[n - 1];
      Acquired(b, ops, n - 1) + if op.Continue? then Gain(b[n - 1], op.t, op.ok) else 0
  }

  ghost function Supplied(b: seq<State>, ops: seq<Op>, n: nat): int
    requires Run(b, ops) && n < |b|
  {
    if n == 0 then b[0].count
    else
      assert Step(b[n - 1], ops[n - 1], b[n]);
      var op := ops[n - 1];
      Supplied(b, ops, n - 1) + if op.Continue? && b[n - 1].pcs[op.t].Add? then b[n - 1].pcs[op.t].n else 0
  }

  /** The units thread t has acquired since it started its latest call. */
  ghost function Mine(b: seq<State>, ops: seq<Op>, t: Tid, n: nat): int
    requires Run(b, ops) && n < |b|
  {
    if n == 0 then 0
    else
      assert Step(b[n - 1], ops[n - 1], b[n]);
      var op := ops[n - 1];
      if op.t != t then Mine(b, ops, t, n - 1)
      else if op.Continue? then Mine(b, ops, t, n - 1) + Gain(b[n - 1], t, op.ok)
      else 0
  }

  ghost predicate Ledger(b: seq<State>, ops: seq<Op>, n: nat, v: View)
    requires Run(b, ops) && n < |b|
  {
    && v.acquired == Acquired(b, ops, n) && v.supplied == Supplied(b, ops, n)
    && forall t :: 0 <= t < |v.mine| ==> v.mine[t] == Mine(b, ops, t, n)
  }

  lemma RunStep(b: seq<State>, ops: seq<Op>, n: nat, v: View) returns (v': View)
    requires Run(b, ops) && 0 < n < |b| && Inv(b[n - 1], v) && Ledger(b, ops, n - 1, v)
    ensures Inv(b[n], v') && Ledger(b, ops, n, v')
  {
    assert Step(b[n - 1], ops[n - 1], b[n]);
    StepKeepsInv(b[n - 1], v, ops[n - 1]);
    v' := NextView(b[n - 1], v, ops[n - 1]);
  }

  lemma RunKeepsInv(b: seq<State>, ops: seq<Op>, n: nat) returns (v: View)
    requires Run(b, ops) && n < |b|
    ensures Inv(b[n], v) && Ledger(b, ops, n, v)
  {
    v := View(0, b[0].count, seq(|b[0].pcs|, _ => 0));
    SumZero(b[0].pcs, Waits);
    SumZero(b[0].pcs, Owes);
    for k := 0 to n
      invariant Inv(b[k], v) && Ledger(b, ops, k, v)
    {
      v := RunStep(b, ops, k + 1, v);
    }
  }

  /** Permits are conserved in every reachable state: what was supplied is acquired, or free in the
      count, or a kernel token, or a post some signal still owes.  So the calls never acquire more
      than was supplied, and the waiters are exactly as many as the tokens, the owed posts and the
      depth of the count below zero. */
  lemma Conservation(b: seq<State>, ops: seq<Op>, n: nat)
    requires Run(b, ops) && n < |b|
    ensures Acquired(b, ops, n) + Max(0, b[n].count) + b[n].kernel + Sum(b[n].pcs, Owes) == Supplied(b, ops, n)
    ensures Acquired(b, ops, n) <= Supplied(b, ops, n)
    ensures Sum(b[n].pcs, Waits) == b[n].kernel + Sum(b[n].pcs, Owes) + Max(0, -b[n].count)
  {
    var v := RunKeepsInv(b, ops, n);
    forall t | 0 <= t < |b[n].pcs| ensures Owes(b[n].pcs[t]) >= 0 { assert PcOk(b[n].pcs[t], v.mine[t]); }
    SumNonNegative(b[n].pcs, Owes);
  }

  /** Every call returns what it acquired: a timeout returns 0 and has acquired nothing. */
  lemma ResultIsAcquired(b: seq<State>, ops: seq<Op>, t: Tid, n: nat)
    requires Run(b, ops) && n < |b| && t < |b[n].pcs| && b[n].pcs[t].Idle?
    ensures b[n].pcs[t].result == Mine(b, ops, t, n) >= 0
  {
    var v := RunKeepsInv(b, ops, n);
    assert PcOk(b[n].pcs[t], v.mine[t]);
  }

  /** While a unit is free in the count and no signal is half done, there is a kernel token for every
      waiter, so every sleeper can go on. */
  lemma NoLostWakeup(b: seq<State>, ops: seq<Op>, t: Tid, n: nat)
    requires Run(b, ops) && n < |b| && t < |b[n].pcs|
    requires Sum(b[n].pcs, Owes) == 0 && b[n].count >= 0 && Waits(b[n].pcs[t]) == 1
    ensures b[n].kernel == Sum(b[n].pcs, Waits) >= 1
    ensures b[n].pcs[t].Sleep? ==> Enabled(b[n], Continue(t, true))
  {
    Conservation(b, ops, n);
    SumNonNegative(b[n].pcs, Waits);
  }

  /** A timed-out waiter leaves its undo loop with its next two instructions once no post is owed:
      either it takes a token after all or it gives its decrement back. */
  lemma UndoEnds(b: seq<State>, ops: seq<Op>, t: Tid, n: nat, ok: bool)
    requires Run(b, ops) && n < |b| && t < |b[n].pcs| && b[n].pcs[t].Undo?
    requires Sum(b[n].pcs, Owes) == 0
    ensures var s1 := Perform(b[n], t, ok);
            && Enabled(s1, Continue(t, ok))
            && Waits(Perform(s1, t, ok).pcs[t]) == 0
            && (Perform(s1, t, ok).pcs[t] == Idle(0) <==> b[n].count < 0)
  {
    Conservation(b, ops, n);
    SumNonNegative(b[n].pcs, Waits);
  }

  // ---------------------------------------------------------------------------------------------
  // What a call may take, and what it takes alone
  // ---------------------------------------------------------------------------------------------

  /** The max of the latest call of thread t among the first n steps; 0 for a signal. */
  function CallMax(ops: seq<Op>, t: Tid, n: nat): nat
    requires n <= |ops|
  {
    if n == 0 then 0
    else
      match ops[n - 1]
      case TryWait(u, max) => if u == t then max else CallMax(ops, t, n - 1)
      case Wait(u, max, _) => if u == t then max else CallMax(ops, t, n - 1)
      case Signal(u, _) => if u == t then 0 else CallMax(ops, t, n - 1)
      case Continue(_, _) => CallMax(ops, t, n - 1)
  }

  /** At this place of its code a call for at most max units has taken no more than that. */
  predicate Within(pc: Pc, max: nat) {
    match pc
    case Idle(result) => 0 <= result <= max
    case TryLoad(m, k) => if k.ThenAddOne? then m + 1 == max else m == max
    case TryCas(m, seen, k) => seen > 0 && if k.ThenAddOne? then m + 1 == max else m == max
    case SpinLoad(m, _, _) => m == max > 0
    case SpinCas(m, _, seen, _) => m == max > 0 && seen > 0
    case Subtract(m, _) => m == max > 0
    case Sleep(m, _) => m == max > 0
    case Undo(m) => m == max > 0
    case UndoTry(m) => m == max > 0
    case UndoCas(m, _) => m == max > 0
    case Add(_) => true
    case Release(_) => true
  }

  lemma StaysWithin(s: State, t: Tid, ok: bool, max: nat)
    requires Enabled(s, Continue(t, ok)) && Within(s.pcs[t], max)
    ensures Within(Perform(s, t, ok).pcs[t], max)
  {
  }

  /** The result of a finished call is at least 0 and at most the max it was given. */
  lemma {:induction false} ResultWithinMax(b: seq<State>, ops: seq<Op>, t: Tid, n: nat)
    requires Run(b, ops) && n < |b| && t < |b[n].pcs|
    ensures Within(b[n].pcs[t], CallMax(ops, t, n))
    ensures b[n].pcs[t].Idle? ==> 0 <= b[n].pcs[t].result <= CallMax(ops, t, n)
    decreases n
  {
    if n > 0 {
      assert Step(b[n - 1], ops[n - 1], b[n]);
      if ops[n - 1].Continue? { LocalShape(b[n - 1], ops[n - 1].t, ops[n - 1].ok); }
      ResultWithinMax(b, ops, t, n - 1);
      if ops[n - 1].Continue? && ops[n - 1].t == t { StaysWithin(b[n - 1], t, ops[n - 1].ok, CallMax(ops, t, n - 1)); }
    }
  }

  /** Thread t alone performs up to k instructions. */
  function Solo(s: State, t: Tid, ok: bool, k: nat): State
    decreases k
  {
    if k == 0 || !Enabled(s, Continue(t, ok)) then s else Solo(Next(s, Continue(t, ok)), t, ok, k - 1)
  }

  /** What a call for at most max units can take from the count. */
  function Takes(s: State, max: nat): nat { if s.count <= 0 then 0 else Min(max, s.count) }

  /** The loop of tryWaitMany: without interference it takes what there is, up to max. */
  lemma TryLoopAlone(s: State, t: Tid, max: nat, k: Cont, n: nat)
    requires t < |s.pcs| && s.pcs[t] == TryLoad(max, k) && s.count > 0
    ensures Solo(s, t, true, n + 2) ==
            Solo(s.(count := s.count - Takes(s, max), pcs := s.pcs[t := Tried(max, Takes(s, max), k)]), t, true, n)
  {
    var s1 := s.(pcs := s.pcs[t := TryCas(max, s.count, k)]);
    var s2 := s.(count := s.count - Takes(s, max), pcs := s.pcs[t := Tried(max, Takes(s, max), k)]);
    assert Solo(s, t, true, n + 2) == Solo(s1, t, true, n + 1);
    assert Next(s1, Continue(t, true)) == s2;
  }

  /** tryWaitMany alone returns the lesser of max and the count, or 0, and leaves the rest. */
  lemma TryAlone(s: State, t: Tid, max: nat)
    requires Enabled(s, TryWait(t, max))
    ensures Solo(Next(s, TryWait(t, max)), t, true, 2) ==
            s.(count := s.count - Takes(s, max), pcs := s.pcs[t := Idle(Takes(s, max))])
  {
    var s1 := Next(s, TryWait(t, max));
    if s.count > 0 {
      TryLoopAlone(s1, t, max, Alone, 0);
    } else {
      assert Solo(s1, t, true, 2) == Solo(Next(s1, Continue(t, true)), t, true, 1);
    }
  }

  /** So does waitMany if there is a unit. */
  lemma WaitAlone(s: State, t: Tid, max: nat, timed: bool)
    requires Enabled(s, Wait(t, max, timed)) && s.count > 0
    ensures Solo(Next(s, Wait(t, max, timed)), t, true, 2) ==
            s.(count := s.count - Takes(s, max), pcs := s.pcs[t := Idle(Takes(s, max))])
    ensures Takes(s, max) > 0
  {
    TryLoopAlone(Next(s, Wait(t, max, timed)), t, max, ThenSpin(timed), 0);
  }

  /** A spinning thread that sees a unit takes what there is, up to max. */
  lemma SpinTakes(s: State, t: Tid)
    requires t < |s.pcs| && s.pcs[t].SpinLoad? && s.count > 0
    ensures var taken := Takes(s, s.pcs[t].max);
      Solo(s, t, true, 2) == s.(count := s.count - taken, pcs := s.pcs[t := Idle(taken)])
  {
    var s1 := s.(pcs := s.pcs[t := SpinCas(s.pcs[t].max, s.pcs[t].timed, s.count, s.pcs[t].spin)]);
    assert Solo(s, t, true, 2) == Solo(s1, t, true, 1) == Solo(Next(s1, Continue(t, true)), t, true, 0);
  }

  lemma {:induction false} SpinsInVain(s: State, t: Tid, max: nat, timed: bool, spin: nat)
    requires t < |s.pcs| && s.pcs[t] == Spinning(max, timed, spin) && s.count <= 0
    ensures Solo(s, t, true, spin + 1) == s.(count := s.count - 1, pcs := s.pcs[t := Sleep(max, timed)])
    decreases spin
  {
    if spin == 0 {
      assert Solo(s, t, true, 1) == Solo(Next(s, Continue(t, true)), t, true, 0);
    } else {
      var s' := s.(pcs := s.pcs[t := Spinning(max, timed, spin - 1)]);
      assert Solo(s, t, true, spin + 1) == Solo(s', t, true, spin);
      SpinsInVain(s', t, max, timed, spin - 1);
    }
  }

  /** Without a unit it spins, announces itself in the count, and goes to sleep. */
  lemma WaitSleeps(s: State, t: Tid, max: nat, timed: bool)
    requires Enabled(s, Wait(t, max, timed)) && s.count <= 0
    ensures Solo(Next(s, Wait(t, max, timed)), t, true, SPINS + 2) ==
            s.(count := s.count - 1, pcs := s.pcs[t := Sleep(max, timed)])
  {
    var s1, n: nat := Next(s, Wait(t, max, timed)), SPINS + 1;
    var s2 := s.(pcs := s.pcs[t := Spinning(max, timed, SPINS)]);
    assert Next(s1, Continue(t, true)) == s2;
    assert Solo(s1, t, true, n + 1) == Solo(s2, t, true, n);
    SpinsInVain(s2, t, max, timed, SPINS);
  }

  /** A sleeper that is given a kernel token returns with one unit, and with more if there are more. */
  lemma WakesAlone(s: State, t: Tid)
    requires t < |s.pcs| && s.pcs[t].Sleep? && s.pcs[t].max > 0 && s.kernel > 0
    ensures var more := if s.pcs[t].max > 1 then Takes(s, s.pcs[t].max - 1) else 0;
      Solo(s, t, true, 3) == State(s.count - more, s.kernel - 1, s.pcs[t := Idle(1 + more)])
  {
    var max := s.pcs[t].max;
    var s1 := s.(kernel := s.kernel - 1, pcs := s.pcs[t := GotOne(max)]);
    assert Solo(s, t, true, 3) == Solo(s1, t, true, 2);
    if max > 1 {
      if s.count > 0 {
        TryLoopAlone(s1, t, max - 1, ThenAddOne, 0);
      } else {
        assert Solo(s1, t, true, 2) == Solo(Next(s1, Continue(t, true)), t, true, 1);
      }
    }
  }

  /** A sleeper that times out while no unit is there takes its announcement back and returns 0. */
  lemma TimesOutAlone(s: State, t: Tid)
    requires t < |s.pcs| && s.pcs[t].Sleep? && s.pcs[t].timed && s.count < 0
    ensures Solo(s, t, false, 3) == s.(count := s.count + 1, pcs := s.pcs[t := Idle(0)])
  {
    var max := s.pcs[t].max;
    var s1 := s.(pcs := s.pcs[t := Undo(max)]);
    var s2 := s.(pcs := s.pcs[t := UndoCas(max, s.count)]);
    assert Solo(s, t, false, 3) == Solo(s1, t, false, 2) == Solo(s2, t, false, 1);
    assert Solo(s2, t, false, 1) == Solo(Next(s2, Continue(t, false)), t, false, 0);
  }

  lemma {:induction false} ReleasesAlone(s: State, t: Tid, r: nat, n: nat)
    requires t < |s.pcs| && s.pcs[t] == Release(r) && 0 < r <= n
    ensures Solo(s, t, true, n) == State(s.count, s.kernel + r, s.pcs[t := Idle(0)])
    decreases r
  {
    var s' := Next(s, Continue(t, true));
    assert Solo(s, t, true, n) == Solo(s', t, true, n - 1);
    if r > 1 { ReleasesAlone(s', t, r - 1, n - 1); }
  }

  /** signal(n) alone adds n units to the count, and as many kernel tokens as there were waiters for them. */
  lemma SignalAlone(s: State, t: Tid, n: nat)
    requires Enabled(s, Signal(t, n))
    ensures Solo(Next(s, Signal(t, n)), t, true, n + 1) ==
            State(s.count + n, s.kernel + Min(Max(0, -s.count), n), s.pcs[t := Idle(0)])
  {
    var s1 := Next(s, Signal(t, n));
    var s2 := Next(s1, Continue(t, true));
    assert Solo(s1, t, true, n + 1) == Solo(s2, t, true, n);
    if Min(-s.count, n) > 0 { ReleasesAlone(s2, t, Min(-s.count, n), n); }
  }

  // ---------------------------------------------------------------------------------------------
  // Every call ends or sleeps
  // ---------------------------------------------------------------------------------------------

  function SpinRank(s: State, spin: nat): nat {
    if s.count <= 0 then spin + 4 else if spin > 0 then 2 else 3
  }

  function FailRank(s: State, k: Cont): nat { if k.ThenSpin? then SpinRank(s, SPINS) else 0 }

  /** An upper bound on the instructions a thread at pc needs when it runs alone. */
  function Rank(s: State, pc: Pc): nat {
    match pc
    case Idle(_) => 0
    case TryLoad(_, k) => if s.count > 0 then 2 else 1 + FailRank(s, k)
    case TryCas(_, seen, k) => if seen == s.count then 1 else if s.count > 0 then 2 else 1 + FailRank(s, k)
    case SpinLoad(_, _, spin) => if s.count > 0 then 2 else spin + 5
    case SpinCas(_, _, seen, spin) => if seen == s.count then 1 else 1 + SpinRank(s, spin)
    case Subtract(_, _) => if s.count > 0 then 3 else 4
    case Sleep(_, _) => 3
    case Undo(_) => if s.count < 0 then 2 else 4
    case UndoTry(_) => 3
    case UndoCas(_, seen) => if seen == s.count then 1 else 5
    case Add(n) => n + 1
    case Release(n) => n
  }

  /** Not waiting for a signal to make its posts. */
  predicate Free(s: State, t: Tid)
    requires t < |s.pcs|
  { s.pcs[t].Undo? || s.pcs[t].UndoTry? || s.pcs[t].UndoCas? ==> s.count < 0 || s.kernel > 0 }

  /** The call has ended, or the thread sleeps and there is no token. */
  predicate Rests(s: State, t: Tid)
    requires t < |s.pcs|
  { s.pcs[t].Idle? || (s.pcs[t].Sleep? && s.kernel == 0) }

  lemma TryLowers(s: State, t: Tid, mine: int)
    requires t < |s.pcs| && (s.pcs[t].TryLoad? || s.pcs[t].TryCas?) && PcOk(s.pcs[t], mine)
    ensures var s' := Perform(s, t, true); t < |s'.pcs| && Free(s', t) && Rank(s', s'.pcs[t]) < Rank(s, s.pcs[t])
  {
  }

  lemma OwnLowers(s: State, t: Tid, mine: int)
    requires t < |s.pcs| && !Rests(s, t) && Free(s, t) && PcOk(s.pcs[t], mine)
    ensures Enabled(s, Continue(t, true))
    ensures var s' := Perform(s, t, true); t < |s'.pcs| && Free(s', t) && Rank(s', s'.pcs[t]) < Rank(s, s.pcs[t])
  {
    if s.pcs[t].TryLoad? || s.pcs[t].TryCas? { TryLowers(s, t, mine); }
  }

  lemma RunOwnStep(b: seq<State>, ops: seq<Op>, t: Tid) returns (s: State)
    requires Run(b, ops) && t < |b[|ops|].pcs| && !Rests(b[|ops|], t) && Free(b[|ops|], t)
    ensures Run(b + [s], ops + [Continue(t, true)])
    ensures t < |s.pcs| && Free(s, t) && Rank(s, s.pcs[t]) < Rank(b[|ops|], b[|ops|].pcs[t])
  {
    var v := RunKeepsInv(b, ops, |ops|);
    OwnLowers(b[|ops|], t, v.mine[t]);
    s := Perform(b[|ops|], t, true);
    var b', ops' := b + [s], ops + [Continue(t, true)];
    forall i {:trigger ops'[i]} | 0 <= i < |ops'| ensures Step(b'[i], ops'[i], b'[i + 1]) {
      if i < |ops| { assert ops'[i] == ops[i] && b'[i] == b[i] && b'[i + 1] == b[i + 1]; }
    }
  }

  /** The steps ops' are ops and then only instructions of thread t. */
  predicate OnlyThen(ops: seq<Op>, ops': seq<Op>, t: Tid) {
    ops <= ops' && forall i :: |ops| <= i < |ops'| ==> ops'[i] == Continue(t, true)
  }

  /** From every state of every run, with whatever stale counts, a thread that goes on alone ends its call or
      falls asleep for want of a token.  Only a waiter that has timed out may have to wait for a post that a
      signal under way still owes. */
  lemma AloneEnds(b: seq<State>, ops: seq<Op>, t: Tid) returns (b': seq<State>, ops': seq<Op>)
    requires Run(b, ops) && t < |b[|ops|].pcs|
    requires var pc := b[|ops|].pcs[t]; pc.Undo? || pc.UndoTry? || pc.UndoCas? ==> Sum(b[|ops|].pcs, Owes) == 0
    ensures Run(b', ops') && b <= b' && OnlyThen(ops, ops', t) && |ops'| <= |ops| + Rank(b[|ops|], b[|ops|].pcs[t])
    ensures t < |b'[|ops'|].pcs| && Rests(b'[|ops'|], t)
  {
    Conservation(b, ops, |ops|);
    if Waits(b[|ops|].pcs[t]) == 1 { SumNonNegative(b[|ops|].pcs, Waits); }
    b', ops' := b, ops;
    var bound := |ops| + Rank(b[|ops|], b[|ops|].pcs[t]);
    while !Rests(b'[|ops'|], t)
      invariant Run(b', ops') && b <= b' && OnlyThen(ops, ops', t) && t < |b'[|ops'|].pcs| && Free(b'[|ops'|], t)
      invariant |ops'| + Rank(b'[|ops'|], b'[|ops'|].pcs[t]) <= bound
      decreases Rank(b'[|ops'|], b'[|ops'|].pcs[t])
    {
      var s := RunOwnStep(b', ops', t);
      b', ops' := b' + [s], ops' + [Continue(t, true)];
    }
  }

  // ---------------------------------------------------------------------------------------------
  // The semaphore in place
  // ---------------------------------------------------------------------------------------------

  class LightweightSemaphore {
    var m_count: int
    var m_sema: nat
    var pcs: seq<Pc>

    ghost function Snapshot(): State
      reads this
    {
      State(m_count, m_sema, pcs)
    }

    constructor (initialCount: nat, threads: nat)
      ensures Initial(Snapshot()) && m_count == initialCount && |pcs| == threads
    {
      m_count, m_sema := initialCount, 0;
      pcs := seq(threads, _ => Idle(0));
    }

    method Start(op: Op)
      requires Enabled(Snapshot(), op) && !op.Continue?
      modifies this`pcs
      ensures Step(old(Snapshot()), op, Snapshot())
    {
      match op {
        case TryWait(t, max) => pcs := pcs[t := TryLoad(max, Alone)];
        case Wait(t, max, timed) => pcs := pcs[t := TryLoad(max, ThenSpin(timed))];
        case Signal(t, n) => pcs := pcs[t := Add(n)];
      }
    }

    /** The next instruction of tryWaitMany or of the spinning part of waitMany. */
    method TryStep(t: Tid, ok: bool)
      requires Enabled(Snapshot(), Continue(t, ok))
      requires pcs[t].TryLoad? || pcs[t].TryCas? || pcs[t].SpinLoad? || pcs[t].SpinCas?
      modifies this
      ensures Step(old(Snapshot()), Continue(t, ok), Snapshot())
    {
      match pcs[t] {
        case TryLoad(max, k) => pcs := pcs[t := Trying(max, m_count, k)];
        case TryCas(max, seen, k) =>
          if ok && m_count == seen {
            m_count := NewCount(seen, max);
            pcs := pcs[t := Tried(max, seen - m_count, k)];
          } else {
            pcs := pcs[t := Trying(max, m_count, k)];
          }
        case SpinLoad(max, timed, spin) =>
          if m_count > 0 {
            pcs := pcs[t := SpinCas(max, timed, m_count, spin)];
          } else {
            pcs := pcs[t := Spinning(max, timed, spin)];
          }
        case SpinCas(max, timed, seen, spin) =>
          if m_count == seen {
            m_count := NewCount(seen, max);
            pcs := pcs[t := Idle(seen - m_count)];
          } else {
            pcs := pcs[t := Spinning(max, timed, spin)];
          }
      }
    }

    /** The next instruction of the blocking part of waitMany. */
    method WaitStep(t: Tid, ok: bool)
      requires Enabled(Snapshot(), Continue(t, ok)) && (pcs[t].Subtract? || Waits(pcs[t]) == 1)
      modifies this
      ensures Step(old(Snapshot()), Continue(t, ok), Snapshot())
    {
      match pcs[t] {
        case Subtract(max, timed) =>
          var oldCount := m_count;
          m_count := oldCount - 1;
          pcs := pcs[t := if oldCount > 0 then GotOne(max) else Sleep(max, timed)];
        case Sleep(max, timed) =>
          if ok {
            m_sema := m_sema - 1;
            pcs := pcs[t := GotOne(max)];
          } else {
            pcs := pcs[t := Undo(max)];
          }
        case Undo(max) =>
          pcs := pcs[t := if m_count >= 0 then UndoTry(max) else UndoCas(max, m_count)];
        case UndoTry(max) =>
          if m_sema > 0 {
            m_sema := m_sema - 1;
            pcs := pcs[t := GotOne(max)];
          } else {
            pcs := pcs[t := Undo(max)];
          }
        case UndoCas(max, seen) =>
          if m_count == seen {
            m_count := seen + 1;
            pcs := pcs[t := Idle(0)];
          } else {
            pcs := pcs[t := Undo(max)];
          }
      }
    }

    method SignalStep(t: Tid, ok: bool)
      requires Enabled(Snapshot(), Continue(t, ok)) && (pcs[t].Add? || pcs[t].Release?)
      modifies this
      ensures Step(old(Snapshot()), Continue(t, ok), Snapshot())
    {
      match pcs[t] {
        case Add(n) =>
          var oldCount := m_count;
          m_count := oldCount + n;
          var toRelease := if -oldCount < n then -oldCount else n;
          pcs := pcs[t := if toRelease > 0 then Release(toRelease) else Idle(0)];
        case Release(n) =>
          m_sema := m_sema + 1;
          pcs := pcs[t := if n > 1 then Release(n - 1) else Idle(0)];
      }
    }
  }
}
