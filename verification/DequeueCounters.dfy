/** The optimistic dequeue protocol of one producer's sub-queue: the four counters tailIndex,
    headIndex, dequeueOptimisticCount and dequeueOvercommit, any number of consumers that take up to
    max elements each, and the values they have read earlier.  dequeue is the case max == 1 of
    dequeue_bulk.  Indices are unbounded here; module Wrapping shows that the wrapped comparisons
    of the source agree with these. */
module DequeueCounters {
  import opened Sums

  type Tid = nat

  datatype Pc =
    | Idle
    | LoadTail(max: nat)
    | LoadOver(max: nat, tail: nat)
    | LoadCount(max: nat, tail: nat, over: nat)
    | Reserve(over: nat, want: nat)              // dequeueOptimisticCount.fetch_add(want)
    | Recheck(over: nat, my: nat, want: nat)     // reload tailIndex
    | GiveBack(rest: nat, actual: nat)           // dequeueOvercommit.fetch_add(rest)
    | Claim(actual: nat)                         // headIndex.fetch_add(actual)

  datatype State = State(tail: nat, head: nat, count: nat, over: nat, pcs: seq<Pc>)

  datatype Op = Publish(n: nat) | Start(t: Tid, max: nat) | Continue(t: Tid)

  predicate Enabled(s: State, op: Op) {
    match op
    case Publish(n) => n > 0
    case Start(t, max) => t < |s.pcs| && s.pcs[t].Idle? && max > 0
    case Continue(t) => t < |s.pcs| && !s.pcs[t].Idle?
  }

  /** tailIndex.store by the producer, a new call, or one atomic instruction of a consumer. */
  function Next(s: State, op: Op): State
    requires Enabled(s, op)
  {
    match op
    case Publish(n) => s.(tail := s.tail + n)
    case Start(t, max) => s.(pcs := s.pcs[t := LoadTail(max)])
    case Continue(t) => Perform(s, t)
  }

  function Perform(s: State, t: Tid): State
    requires t < |s.pcs| && !s.pcs[t].Idle?
  {
    match s.pcs[t]
    case LoadTail(max) => s.(pcs := s.pcs[t := LoadOver(max, s.tail)])
    case LoadOver(max, tail) => s.(pcs := s.pcs[t := LoadCount(max, tail, s.over)])
    case LoadCount(max, tail, over) =>
      var desired := tail - (s.count - over);
      s.(pcs := s.pcs[t := if desired > 0 then Reserve(over, Min(desired, max)) else Idle])
    case Reserve(over, want) =>
      s.(count := s.count + want, pcs := s.pcs[t := Recheck(over, s.count, want)])
    case Recheck(over, my, want) =>
      var actual := s.tail - (my - over);
      s.(pcs := s.pcs[t := if actual <= 0 then GiveBack(want, 0)
                           else if actual < want then GiveBack(want - actual, actual)
                           else Claim(want)])
    case GiveBack(rest, actual) =>
      s.(over := s.over + rest, pcs := s.pcs[t := if actual > 0 then Claim(actual) else Idle])
    case Claim(actual) => s.(head := s.head + actual, pcs := s.pcs[t := Idle])
  }

  // ---------------------------------------------------------------------------------------------
  // The invariant
  // ---------------------------------------------------------------------------------------------

  /** One fetch_add on dequeueOptimisticCount: the units asked for, those found to exist, those
      already returned to dequeueOvercommit, and those already taken from headIndex. */
  datatype Reservation = Reservation(want: nat, granted: nat, back: nat, claimed: nat)

  /** All reservations in the order of dequeueOptimisticCount, and the current one of each thread. */
  datatype View = View(hist: seq<Reservation>, cur: seq<nat>)

  function Want(r: Reservation): int { r.want }
  function Granted(r: Reservation): int { r.granted }
  function Back(r: Reservation): int { r.back }
  function Claimed(r: Reservation): int { r.claimed }
  function Kept(r: Reservation): int { r.want - r.back }

  /** Units a thread has reserved and neither claimed nor returned. */
  function InFlight(pc: Pc): int {
    match pc
    case Recheck(_, _, want) => want
    case GiveBack(rest, actual) => rest + actual
    case Claim(actual) => actual
    case _ => 0
  }

  ghost predicate PcOk(s: State, v: View, t: Tid)
    requires t < |s.pcs| == |v.cur|
  {
    var i := v.cur[t];
    match s.pcs[t]
    case Reserve(over, want) => over <= s.over && want > 0
    case LoadCount(max, tail, over) => over <= s.over && tail <= s.tail && max > 0
    case LoadTail(max) => max > 0
    case LoadOver(max, tail) => tail <= s.tail && max > 0
    case Recheck(over, my, want) =>
      && i < |v.hist| && v.hist[i] == Reservation(want, 0, 0, 0)
      && my == Sum(v.hist[..i], Want) && over <= Sum(v.hist[..i], Back)
    case GiveBack(rest, actual) =>
      i < |v.hist| && v.hist[i] == Reservation(rest + actual, actual, 0, 0)
    case Claim(actual) =>
      i < |v.hist| && v.hist[i].granted == actual && v.hist[i].claimed == 0 && v.hist[i].back + actual == v.hist[i].want
    case _ => true
  }

  predicate Undecided(pc: Pc) { pc.Recheck? || pc.GiveBack? || pc.Claim? }

  /** A reservation whose units were found to exist started early enough: even if every unit
      reserved before it and not returned were granted, its own units lie below tailIndex. */
  ghost predicate ReservationOk(hist: seq<Reservation>, i: nat, tail: nat)
    requires i < |hist|
  {
    && hist[i].granted + hist[i].back <= hist[i].want
    && hist[i].claimed <= hist[i].granted
    && (hist[i].granted > 0 ==> Sum(hist[..i], Kept) + hist[i].granted <= tail)
  }

  ghost predicate Hist(hist: seq<Reservation>, tail: nat) {
    forall i :: 0 <= i < |hist| ==> ReservationOk(hist, i, tail)
  }

  ghost predicate Inv(s: State, v: View) {
    && |v.cur| == |s.pcs|
    && (forall t :: 0 <= t < |s.pcs| ==> PcOk(s, v, t))
    && (forall t, u :: 0 <= t < u < |s.pcs| && Undecided(s.pcs[t]) && Undecided(s.pcs[u]) ==> v.cur[t] != v.cur[u])
    && Hist(v.hist, s.tail)
    && s.count == Sum(v.hist, Want) && s.over == Sum(v.hist, Back) && s.head == Sum(v.hist, Claimed)
    && s.count == s.head + s.over + Sum(s.pcs, InFlight)
  }

  /** Together the granted units never exceed tailIndex: look at the last reservation that got any. */
  lemma {:induction false} GrantedBelowTail(hist: seq<Reservation>, tail: nat, n: nat)
    requires Hist(hist, tail) && n <= |hist|
    ensures Sum(hist[..n], Granted) <= tail
    decreases n
  {
    if n > 0 {
      assert hist[..n][..n - 1] == hist[..n - 1];
      assert ReservationOk(hist, n - 1, tail);
      if hist[n - 1].granted == 0 {
        GrantedBelowTail(hist, tail, n - 1);
      } else {
        forall i | 0 <= i < n - 1 ensures Granted(hist[i]) <= Kept(hist[i]) {
          assert ReservationOk(hist, i, tail);
        }
        SumMono(hist[..n - 1], Granted, hist[..n - 1], Kept);
      }
    }
  }

  lemma ClaimedIsGranted(s: State, v: View)
    requires Inv(s, v)
    ensures s.head <= s.tail && Sum(v.hist, Granted) <= s.tail
    ensures forall i :: 0 <= i < |v.hist| ==> Claimed(v.hist[i]) <= Granted(v.hist[i])
  {
    GrantedBelowTail(v.hist, s.tail, |v.hist|);
    assert v.hist[..|v.hist|] == v.hist;
    forall i | 0 <= i < |v.hist| ensures Claimed(v.hist[i]) <= Granted(v.hist[i]) {
      assert ReservationOk(v.hist, i, s.tail);
    }
    SumMono(v.hist, Claimed, v.hist, Granted);
  }

  /** headIndex, even after every claim already decided, stays at or below tailIndex. */
  lemma HeadBelowTail(s: State, v: View, t: Tid)
    requires Inv(s, v) && t < |s.pcs|
    ensures s.head <= s.tail
    ensures s.pcs[t].Claim? ==> s.head + s.pcs[t].actual <= s.tail
  {
    ClaimedIsGranted(s, v);
    if s.pcs[t].Claim? {
      assert PcOk(s, v, t);
      var i := v.cur[t];
      var r := v.hist[i].(claimed := v.hist[i].granted);
      SumUpdate(v.hist, Claimed, i, r);
      SumMono(v.hist[i := r], Claimed, v.hist, Granted);
    }
  }

  // ---------------------------------------------------------------------------------------------
  // Preservation
  // ---------------------------------------------------------------------------------------------

  function NextView(s: State, v: View, op: Op): View
    requires Enabled(s, op) && |v.cur| == |s.pcs|
  {
    match op
    case Continue(t) => PerformView(s, v, t)
    case _ => v
  }

  function PerformView(s: State, v: View, t: Tid): View
    requires t < |s.pcs| == |v.cur|
  {
    var i := v.cur[t];
    match s.pcs[t]
    case Reserve(_, want) =>
      View(v.hist + [Reservation(want, 0, 0, 0)], v.cur[t := |v.hist|])
    case Recheck(over, my, want) =>
      var actual := s.tail - (my - over);
      if i < |v.hist| && actual > 0 then v.(hist := v.hist[i := v.hist[i].(granted := Min(actual, want))]) else v
    case GiveBack(rest, _) => if i < |v.hist| then v.(hist := v.hist[i := v.hist[i].(back := rest)]) else v
    case Claim(actual) => if i < |v.hist| then v.(hist := v.hist[i := v.hist[i].(claimed := actual)]) else v
    case _ => v
  }

  /** Later decisions about a reservation only return units; they move no prefix sum the wrong way. */
  lemma Decide(hist: seq<Reservation>, i: nat, r: Reservation, k: nat)
    requires i < |hist| && k <= |hist| && r.want == hist[i].want && r.back >= hist[i].back
    ensures Sum(hist[i := r][..k], Want) == Sum(hist[..k], Want)
    ensures Sum(hist[i := r][..k], Back) >= Sum(hist[..k], Back)
    ensures Sum(hist[i := r][..k], Kept) <= Sum(hist[..k], Kept)
  {
    var a, b := hist[..k], hist[i := r][..k];
    SumMono(a, Want, b, Want);
    SumMono(b, Want, a, Want);
    SumMono(a, Back, b, Back);
    SumMono(b, Kept, a, Kept);
  }

  lemma DecideHist(hist: seq<Reservation>, i: nat, r: Reservation, tail: nat)
    requires Hist(hist, tail) && i < |hist| && r.want == hist[i].want && r.back >= hist[i].back
    requires r.granted + r.back <= r.want && r.claimed <= r.granted
    requires r.granted > 0 ==> Sum(hist[..i], Kept) + r.granted <= tail
    ensures Hist(hist[i := r], tail)
  {
    var hist' := hist[i := r];
    forall k | 0 <= k < |hist| ensures ReservationOk(hist', k, tail) {
      assert ReservationOk(hist, k, tail);
      Decide(hist, i, r, k);
    }
  }

  /** Reservation i belongs to t; changing it does not disturb another thread. */
  lemma DecideOther(s: State, v: View, s': State, i: nat, r: Reservation, u: Tid)
    requires u < |s.pcs| == |v.cur| == |s'.pcs| && PcOk(s, v, u) && s'.pcs[u] == s.pcs[u] && s'.over >= s.over && s'.tail >= s.tail
    requires i < |v.hist| && r.want == v.hist[i].want && r.back >= v.hist[i].back
    requires Undecided(s.pcs[u]) ==> v.cur[u] != i
    ensures PcOk(s', v.(hist := v.hist[i := r]), u)
  {
    if Undecided(s.pcs[u]) { Decide(v.hist, i, r, v.cur[u]); }
  }

  lemma ReserveOther(s: State, v: View, s': State, t: Tid, r: Reservation, u: Tid)
    requires t < |s.pcs| && u < |s.pcs| == |v.cur| == |s'.pcs| && u != t && PcOk(s, v, u)
    requires s'.pcs[u] == s.pcs[u] && s'.over == s.over && s'.tail == s.tail
    ensures PcOk(s', View(v.hist + [r], v.cur[t := |v.hist|]), u)
  {
    if Undecided(s.pcs[u]) { assert (v.hist + [r])[..v.cur[u]] == v.hist[..v.cur[u]]; }
  }

  lemma ReserveHist(hist: seq<Reservation>, r: Reservation, tail: nat)
    requires Hist(hist, tail) && r.granted == r.back == r.claimed == 0
    ensures Hist(hist + [r], tail)
  {
    forall k | 0 <= k < |hist + [r]| ensures ReservationOk(hist + [r], k, tail) {
      if k < |hist| {
        assert ReservationOk(hist, k, tail) && (hist + [r])[..k] == hist[..k];
      }
    }
  }

  lemma StepReserve(s: State, v: View, t: Tid, over: nat, want: nat)
    requires Inv(s, v) && t < |s.pcs| && s.pcs[t] == Reserve(over, want)
    ensures Inv(Perform(s, t), PerformView(s, v, t))
  {
    var s', v' := Perform(s, t), PerformView(s, v, t);
    var r := Reservation(want, 0, 0, 0);
    assert PcOk(s, v, t);
    assert v'.hist[..|v.hist|] == v.hist;
    SumAppend(v.hist, Want, r);
    SumAppend(v.hist, Back, r);
    SumAppend(v.hist, Claimed, r);
    SumUpdate(s.pcs, InFlight, t, s'.pcs[t]);
    ReserveHist(v.hist, r, s.tail);
    forall u | 0 <= u < |s.pcs| ensures PcOk(s', v', u) {
      if u != t { ReserveOther(s, v, s', t, r, u); }
    }
    forall u | 0 <= u < |s.pcs| && Undecided(s.pcs[u]) ensures v.cur[u] < |v.hist| { assert PcOk(s, v, u); }
  }

  /** Recheck, GiveBack and Claim: thread t decides something about its own reservation. */
  lemma StepDecide(s: State, v: View, t: Tid, r: Reservation)
    requires Inv(s, v) && t < |s.pcs| && Undecided(s.pcs[t])
    requires v.cur[t] < |v.hist| && PerformView(s, v, t) == v.(hist := v.hist[v.cur[t] := r])
    requires r.want == v.hist[v.cur[t]].want && r.back >= v.hist[v.cur[t]].back
    requires r.granted + r.back <= r.want && r.claimed <= r.granted
    requires r.granted > 0 ==> Sum(v.hist[..v.cur[t]], Kept) + r.granted <= s.tail
    requires Perform(s, t).over - s.over == r.back - v.hist[v.cur[t]].back
    requires Perform(s, t).head - s.head == r.claimed - v.hist[v.cur[t]].claimed
    requires PcOk(Perform(s, t), PerformView(s, v, t), t)
    ensures Inv(Perform(s, t), PerformView(s, v, t))
  {
    var s', v', i := Perform(s, t), PerformView(s, v, t), v.cur[t];
    assert PcOk(s, v, t);
    DecideHist(v.hist, i, r, s.tail);
    SumUpdate(v.hist, Want, i, r);
    SumUpdate(v.hist, Back, i, r);
    SumUpdate(v.hist, Claimed, i, r);
    SumUpdate(s.pcs, InFlight, t, s'.pcs[t]);
    forall u | 0 <= u < |s.pcs| ensures PcOk(s', v', u) {
      if u != t {
        assert PcOk(s, v, u);
        assert Undecided(s.pcs[u]) ==> v.cur[u] != i;
        DecideOther(s, v, s', i, r, u);
      }
    }
  }

  /** The stale overcommit: the units known to be returned when thread t read dequeueOvercommit are
      units of earlier reservations, so what the earlier ones keep is at most my - over. */
  lemma StepRecheck(s: State, v: View, t: Tid, over: nat, my: nat, want: nat)
    requires Inv(s, v) && t < |s.pcs| && s.pcs[t] == Recheck(over, my, want)
    ensures Inv(Perform(s, t), PerformView(s, v, t))
  {
    assert PcOk(s, v, t);
    var i, actual := v.cur[t], s.tail - (my - over);
    KeptIsDifference(v.hist[..i]);
    var r := if actual > 0 then v.hist[i].(granted := Min(actual, want)) else v.hist[i];
    assert v.hist[i := v.hist[i]] == v.hist;
    StepDecide(s, v, t, r);
  }

  lemma {:induction false} KeptIsDifference(hist: seq<Reservation>)
    ensures Sum(hist, Kept) == Sum(hist, Want) - Sum(hist, Back)
    decreases |hist|
  {
    if hist != [] { KeptIsDifference(hist[..|hist| - 1]); }
  }

  lemma StepGiveBack(s: State, v: View, t: Tid, rest: nat, actual: nat)
    requires Inv(s, v) && t < |s.pcs| && s.pcs[t] == GiveBack(rest, actual)
    ensures Inv(Perform(s, t), PerformView(s, v, t))
  {
    assert PcOk(s, v, t) && ReservationOk(v.hist, v.cur[t], s.tail);
    StepDecide(s, v, t, v.hist[v.cur[t]].(back := rest));
  }

  lemma StepClaim(s: State, v: View, t: Tid, actual: nat)
    requires Inv(s, v) && t < |s.pcs| && s.pcs[t] == Claim(actual)
    ensures Inv(Perform(s, t), PerformView(s, v, t))
  {
    assert PcOk(s, v, t) && ReservationOk(v.hist, v.cur[t], s.tail);
    StepDecide(s, v, t, v.hist[v.cur[t]].(claimed := actual));
  }

  /** Loads and the start of a call move only the program counter of t. */
  lemma StepLoad(s: State, v: View, t: Tid, pc: Pc)
    requires Inv(s, v) && t < |s.pcs| && !Undecided(s.pcs[t]) && !Undecided(pc)
    requires PcOk(s.(pcs := s.pcs[t := pc]), v, t)
    ensures Inv(s.(pcs := s.pcs[t := pc]), v)
  {
    var s' := s.(pcs := s.pcs[t := pc]);
    SumUpdate(s.pcs, InFlight, t, pc);
    forall u | 0 <= u < |s.pcs| ensures PcOk(s', v, u) {
      if u != t { assert PcOk(s, v, u); }
    }
  }

  lemma StepPublish(s: State, v: View, n: nat)
    requires Inv(s, v)
    ensures Inv(s.(tail := s.tail + n), v)
  {
    var s' := s.(tail := s.tail + n);
    forall t | 0 <= t < |s.pcs| ensures PcOk(s', v, t) { assert PcOk(s, v, t); }
    forall i | 0 <= i < |v.hist| ensures ReservationOk(v.hist, i, s'.tail) {
      assert ReservationOk(v.hist, i, s.tail);
    }
  }

  lemma StepKeepsInv(s: State, v: View, op: Op)
    requires Inv(s, v) && Enabled(s, op)
    ensures Inv(Next(s, op), NextView(s, v, op))
  {
    match op
    case Publish(n) => StepPublish(s, v, n);
    case Start(t, max) => StepLoad(s, v, t, LoadTail(max));
    case Continue(t) =>
      assert PcOk(s, v, t);
      match s.pcs[t] {
        case Reserve(over, want) => StepReserve(s, v, t, over, want);
        case Recheck(over, my, want) => StepRecheck(s, v, t, over, my, want);
        case GiveBack(rest, actual) => StepGiveBack(s, v, t, rest, actual);
        case Claim(actual) => StepClaim(s, v, t, actual);
        case LoadTail(max) => StepLoad(s, v, t, LoadOver(max, s.tail));
        case LoadOver(max, tail) => StepLoad(s, v, t, LoadCount(max, tail, s.over));
        case LoadCount(_, _, _) => StepLoad(s, v, t, Perform(s, t).pcs[t]);
      }
  }

  // ---------------------------------------------------------------------------------------------
  // Runs
  // ---------------------------------------------------------------------------------------------

  predicate Initial(s: State) {
    s.tail == s.head == s.count == s.over == 0 && forall t :: 0 <= t < |s.pcs| ==> s.pcs[t].Idle?
  }

  predicate Step(s: State, op: Op, s': State) { Enabled(s, op) && s' == Next(s, op) }

  ghost predicate Run(b: seq<State>, ops: seq<Op>) {
    && |b| == |ops| + 1 && Initial(b[0])
    && forall i {:trigger ops[i]} :: 0 <= i < |ops| ==> Step(b[i], ops[i], b[i + 1])
  }

  lemma InitialInv(s: State) returns (v: View)
    requires Initial(s)
    ensures Inv(s, v)
  {
    v := View([], seq(|s.pcs|, _ => 0));
    SumZero(s.pcs, InFlight);
  }

  lemma RunStep(b: seq<State>, ops: seq<Op>, i: nat, v: View) returns (v': View)
    requires Run(b, ops) && 0 < i < |b| && Inv(b[i - 1], v)
    ensures Inv(b[i], v')
  {
    assert Step(b[i - 1], ops[i - 1], b[i]);
    StepKeepsInv(b[i - 1], v, ops[i - 1]);
    v' := NextView(b[i - 1], v, ops[i - 1]);
  }

  lemma RunKeepsInv(b: seq<State>, ops: seq<Op>, i: nat) returns (v: View)
    requires Run(b, ops) && i < |b|
    ensures Inv(b[i], v)
  {
    v := InitialInv(b[0]);
    for k := 0 to i
      invariant Inv(b[k], v)
    {
      v := RunStep(b, ops, k + 1, v);
    }
  }

  /** In every reachable state the counters balance, and nothing beyond tailIndex has been taken. */
  lemma Accounting(b: seq<State>, ops: seq<Op>, i: nat)
    requires Run(b, ops) && i < |b|
    ensures b[i].count == b[i].head + b[i].over + Sum(b[i].pcs, InFlight)
    ensures b[i].head <= b[i].tail
  {
    var v := RunKeepsInv(b, ops, i);
    ClaimedIsGranted(b[i], v);
  }

  /** The instruction headIndex.fetch_add(actual): the thread claims [head, head + actual). */
  predicate Claims(s: State, op: Op) { op.Continue? && op.t < |s.pcs| && s.pcs[op.t].Claim? }

  function Size(s: State, op: Op): nat requires Claims(s, op) { s.pcs[op.t].actual }

  lemma {:induction false} HeadGrows(b: seq<State>, ops: seq<Op>, i: nat, j: nat)
    requires Run(b, ops) && i <= j < |b|
    ensures b[i].head <= b[j].head && b[i].tail <= b[j].tail
    decreases j
  {
    if i < j {
      HeadGrows(b, ops, i, j - 1);
      assert Step(b[j - 1], ops[j - 1], b[j]);
    }
  }

  /** No index is claimed twice and every claimed index lies below tailIndex at that moment. */
  lemma ClaimsAreExclusive(b: seq<State>, ops: seq<Op>, i: nat, j: nat)
    requires Run(b, ops) && i < j < |ops| && Claims(b[i], ops[i]) && Claims(b[j], ops[j])
    ensures b[i].head + Size(b[i], ops[i]) <= b[j].head
    ensures b[j].head + Size(b[j], ops[j]) <= b[j].tail
  {
    assert Step(b[i], ops[i], b[i + 1]);
    HeadGrows(b, ops, i + 1, j);
    var v := RunKeepsInv(b, ops, j);
    HeadBelowTail(b[j], v, ops[j].t);
  }

  /** Every index below headIndex has been claimed by somebody. */
  lemma {:induction false} ClaimsAreComplete(b: seq<State>, ops: seq<Op>, n: nat, index: nat) returns (i: nat)
    requires Run(b, ops) && n < |b| && index < b[n].head
    ensures i < n && Claims(b[i], ops[i]) && b[i].head <= index < b[i].head + Size(b[i], ops[i])
    decreases n
  {
    assert n > 0;
    assert Step(b[n - 1], ops[n - 1], b[n]);
    if index < b[n - 1].head { i := ClaimsAreComplete(b, ops, n - 1, index); } else { i := n - 1; }
  }

  // ---------------------------------------------------------------------------------------------
  // The counters in place
  // ---------------------------------------------------------------------------------------------

  class ProducerCounters {
    var tailIndex: nat
    var headIndex: nat
    var dequeueOptimisticCount: nat
    var dequeueOvercommit: nat
    var pcs: seq<Pc>

    ghost function Snapshot(): State
      reads this
    {
      State(tailIndex, headIndex, dequeueOptimisticCount, dequeueOvercommit, pcs)
    }

    constructor (threads: nat)
      ensures Initial(Snapshot()) && |pcs| == threads
    {
      tailIndex, headIndex, dequeueOptimisticCount, dequeueOvercommit := 0, 0, 0, 0;
      pcs := seq(threads, _ => Idle);
    }

    /** One atomic instruction of the producer or of a consumer. */
    method Execute(op: Op)
      requires Enabled(Snapshot(), op)
      modifies this
      ensures Step(old(Snapshot()), op, Snapshot())
    {
      match op {
        case Publish(n) => tailIndex := tailIndex + n;
        case Start(t, max) => pcs := pcs[t := LoadTail(max)];
        case Continue(t) =>
          match pcs[t] {
            case LoadTail(max) => pcs := pcs[t := LoadOver(max, tailIndex)];
            case LoadOver(max, tail) => pcs := pcs[t := LoadCount(max, tail, dequeueOvercommit)];
            case LoadCount(max, tail, over) =>
              var desired := tail - (dequeueOptimisticCount - over);
              if desired > 0 {
                pcs := pcs[t := Reserve(over, if desired < max then desired else max)];
              } else {
                pcs := pcs[t := Idle];
              }
            case Reserve(over, want) =>
              pcs := pcs[t := Recheck(over, dequeueOptimisticCount, want)];
              dequeueOptimisticCount := dequeueOptimisticCount + want;
            case Recheck(over, my, want) =>
              var actual := tailIndex - (my - over);
              if actual <= 0 {
                pcs := pcs[t := GiveBack(want, 0)];
              } else if actual < want {
                pcs := pcs[t := GiveBack(want - actual, actual)];
              } else {
                pcs := pcs[t := Claim(want)];
              }
            case GiveBack(rest, actual) =>
              dequeueOvercommit := dequeueOvercommit + rest;
              pcs := pcs[t := if actual > 0 then Claim(actual) else Idle];
            case Claim(actual) =>
              headIndex := headIndex + actual;
              pcs := pcs[t := Idle];
          }
      }
    }
  }

  // ---------------------------------------------------------------------------------------------
  // Without interference
  // ---------------------------------------------------------------------------------------------

  /** Thread t alone performs up to k instructions of its operation. */
  function Solo(s: State, t: Tid, k: nat): State
    requires t < |s.pcs|
    decreases k
  {
    if k == 0 || s.pcs[t].Idle? then s else Solo(Perform(s, t), t, k - 1)
  }

  /** A consumer that runs while no reservation is in flight takes min(max, tail - head) elements and
      leaves no reservation behind; so it comes back empty-handed only from an empty sub-queue. */
  lemma AloneTakesAll(s: State, t: Tid, max: nat)
    requires Enabled(s, Start(t, max)) && s.head <= s.tail && s.count == s.head + s.over
    ensures var s' := Solo(Next(s, Start(t, max)), t, 6);
            && s'.pcs == s.pcs && s'.tail == s.tail && s'.count == s'.head + s'.over
            && s'.head == s.head + Min(max, s.tail - s.head)
  {
    var s0 := Next(s, Start(t, max));
    var s3 := s.(pcs := s.pcs[t := if s.head < s.tail then Reserve(s.over, Min(s.tail - s.head, max)) else Idle]);
    assert Solo(s0, t, 6) == Solo(s3, t, 3) by {
      var s1 := Perform(s0, t);
      var s2 := Perform(s1, t);
      assert Solo(s0, t, 6) == Solo(s1, t, 5) == Solo(s2, t, 4) == Solo(Perform(s2, t), t, 3);
      assert Perform(s2, t) == s3;
    }
    if s.head < s.tail {
      var want := Min(s.tail - s.head, max);
      var s4, s5 := Perform(s3, t), Perform(Perform(s3, t), t);
      assert s5.pcs[t] == Claim(want);
      assert Solo(s3, t, 3) == Solo(s4, t, 2) == Solo(s5, t, 1) == Solo(Perform(s5, t), t, 0);
      assert Perform(s5, t).pcs == s.pcs;
    } else {
      assert s3.pcs == s.pcs;
    }
  }
}
