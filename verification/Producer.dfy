/** The dequeue counters and the sub-queue together: a consumer first settles with the counters how many
    elements it may take, then claims them with one fetch_add on headIndex, then moves them out; the
    producer's store to tailIndex is seen by both. */
module Producer {
  import D = DequeueCounters
  import Q = SubQueue
  import Proof = SubQueueProof
  import Runs = SubQueueRuns
  import opened BlockIndex
  import opened Sums

  /** fault: a consumer has claimed beyond tailIndex, or while still at work on an earlier claim. */
  datatype State = State(c: D.State, q: Q.State, fault: bool)

  datatype Op =
    | Dequeue(t: nat, max: nat)   // dequeue or dequeue_bulk begins
    | Count(t: nat)               // one instruction on the counters
    | Other(op: Q.Op)             // the producer, a consumer moving elements out, other producers

  predicate Enabled(s: State, op: Op) {
    match op
    case Dequeue(t, max) => D.Enabled(s.c, D.Start(t, max)) && t < |s.q.cons| && s.q.cons[t].Idle?
    case Count(t) => D.Enabled(s.c, D.Continue(t))
    case Other(op) => !op.Claim? && Q.Enabled(s.q, op) && WellFormed(s.q.ix)
  }

  function Next(s: State, op: Op): State
    requires Enabled(s, op)
  {
    match op
    case Dequeue(t, max) => s.(c := D.Next(s.c, D.Start(t, max)))
    case Count(t) =>
      var c := D.Next(s.c, D.Continue(t));
      if !s.c.pcs[t].Claim? then s.(c := c)
      else if WellFormed(s.q.ix) && Q.Enabled(s.q, Q.Claim(t, s.c.pcs[t].actual))
      then s.(c := c, q := Q.Next(s.q, Q.Claim(t, s.c.pcs[t].actual)))
      else s.(c := c, fault := true)
    case Other(op) =>
      var q := Q.Next(s.q, op);
      var n := |Runs.Published(s.q, op)|;
      s.(c := if n > 0 then D.Next(s.c, D.Publish(n)) else s.c, q := q)
  }

  predicate Busy(pc: D.Pc) { !pc.Idle? }

  ghost predicate Linked(s: State) {
    && !s.fault && s.c.tail == s.q.tail && s.c.head == s.q.head && |s.c.pcs| == |s.q.cons|
    && forall t :: 0 <= t < |s.c.pcs| && Busy(s.c.pcs[t]) ==> s.q.cons[t].Idle?
  }

  ghost predicate Inv(s: State, vc: D.View, vq: Proof.History) {
    D.Inv(s.c, vc) && Proof.Inv(s.q, vq) && Linked(s) && ClaimsPositive(s.c)
  }

  /** A thread that is about to claim claims at least one element. */
  predicate ClaimsPositive(c: D.State) {
    forall t :: 0 <= t < |c.pcs| ==> (c.pcs[t].Claim? ==> c.pcs[t].actual > 0)
                                     && (c.pcs[t].Recheck? ==> c.pcs[t].want > 0)
  }

  lemma PositiveStep(c: D.State, vc: D.View, op: D.Op)
    requires D.Inv(c, vc) && D.Enabled(c, op) && ClaimsPositive(c)
    ensures ClaimsPositive(D.Next(c, op))
  {
    if op.Continue? { assert D.PcOk(c, vc, op.t); }
  }

  /** The counters' own steps, and the claim they lead to: it never reaches beyond tailIndex. */
  lemma CountStep(s: State, vc: D.View, vq: Proof.History, t: nat) returns (vq': Proof.History)
    requires Inv(s, vc, vq) && Enabled(s, Count(t))
    ensures Inv(Next(s, Count(t)), D.NextView(s.c, vc, D.Continue(t)), vq') && vq'.log == vq.log
  {
    D.StepKeepsInv(s.c, vc, D.Continue(t));
    PositiveStep(s.c, vc, D.Continue(t));
    vq' := vq;
    if s.c.pcs[t].Claim? {
      D.HeadBelowTail(s.c, vc, t);
      vq' := Proof.StepClaim(s.q, vq, t, s.c.pcs[t].actual);
    }
  }

  /** A step on the blocks keeps headIndex, and leaves every consumer that is not inside a claim alone. */
  lemma OtherFrame(q: Q.State, op: Q.Op)
    requires WellFormed(q.ix) && Q.Enabled(q, op) && !op.Claim?
    ensures Q.Next(q, op).head == q.head && |Q.Next(q, op).cons| == |q.cons|
    ensures forall t :: 0 <= t < |q.cons| && q.cons[t].Idle? ==> Q.Next(q, op).cons[t] == q.cons[t]
  {
  }

  lemma PublishFrame(s: State, vc: D.View, n: nat)
    requires D.Inv(s.c, vc) && n > 0 && ClaimsPositive(s.c)
    ensures D.Inv(D.Next(s.c, D.Publish(n)), vc) && ClaimsPositive(D.Next(s.c, D.Publish(n)))
  {
    D.StepKeepsInv(s.c, vc, D.Publish(n));
  }

  lemma OtherStep(s: State, vc: D.View, vq: Proof.History, op: Q.Op) returns (vq': Proof.History)
    requires Inv(s, vc, vq) && Enabled(s, Other(op))
    ensures Inv(Next(s, Other(op)), vc, vq') && vq.log <= vq'.log
  {
    vq' := Proof.StepKeepsInv(s.q, vq, op);
    Runs.TailStep(s.q, op);
    OtherFrame(s.q, op);
    var n := |Runs.Published(s.q, op)|;
    if n > 0 { PublishFrame(s, vc, n); }
  }

  lemma StepKeepsInv(s: State, vc: D.View, vq: Proof.History, op: Op) returns (vc': D.View, vq': Proof.History)
    requires Inv(s, vc, vq) && Enabled(s, op)
    ensures Inv(Next(s, op), vc', vq') && vq.log <= vq'.log
  {
    vc', vq' := vc, vq;
    match op {
      case Dequeue(t, max) => D.StepKeepsInv(s.c, vc, D.Start(t, max));
      case Count(t) =>
        vq' := CountStep(s, vc, vq, t);
        vc' := D.NextView(s.c, vc, D.Continue(t));
      case Other(op) => vq' := OtherStep(s, vc, vq, op);
    }
  }

  // ---------------------------------------------------------------------------------------------
  // Runs
  // ---------------------------------------------------------------------------------------------

  ghost predicate Initial(s: State) {
    && !s.fault && D.Initial(s.c) && |s.c.pcs| == |s.q.cons|
    && exists cap, junk :: Runs.Initial(s.q, cap, junk)
  }

  predicate Step(s: State, op: Op, s': State) { Enabled(s, op) && s' == Next(s, op) }

  ghost predicate Run(b: seq<State>, ops: seq<Op>) {
    && |b| == |ops| + 1 && Initial(b[0])
    && forall i {:trigger ops[i]} :: 0 <= i < |ops| ==> Step(b[i], ops[i], b[i + 1])
  }

  function Published(s: State, op: Op): seq<Q.Elem> { if op.Other? then Runs.Published(s.q, op.op) else [] }

  /** The elements of all successful enqueues among the first n steps, in order. */
  function Accepted(b: seq<State>, ops: seq<Op>, n: nat): seq<Q.Elem>
    requires n <= |ops| <= |b|
  {
    if n == 0 then [] else Accepted(b, ops, n - 1) + Published(b[n - 1], ops[n - 1])
  }

  lemma LogStep(s: State, vc: D.View, vq: Proof.History, op: Op, vq': Proof.History)
    requires Inv(s, vc, vq) && Enabled(s, op) && vq.log <= vq'.log && |vq'.log| >= Next(s, op).q.tail
    ensures vq'.log[..Next(s, op).q.tail] == vq.log[..s.q.tail] + Published(s, op)
  {
    if op.Other? {
      Runs.TailStep(s.q, op.op);
      Runs.LogStep(s.q, vq, op.op, vq');
    }
  }

  ghost predicate RunInv(b: seq<State>, ops: seq<Op>, n: nat, vc: D.View, vq: Proof.History)
    requires n <= |ops| < |b|
  {
    Inv(b[n], vc, vq) && vq.log[..b[n].q.tail] == Accepted(b, ops, n)
  }

  lemma RunStep(b: seq<State>, ops: seq<Op>, n: nat, vc: D.View, vq: Proof.History) returns (vc': D.View, vq': Proof.History)
    requires Run(b, ops) && 0 < n < |b| && RunInv(b, ops, n - 1, vc, vq)
    ensures RunInv(b, ops, n, vc', vq')
  {
    assert Step(b[n - 1], ops[n - 1], b[n]);
    vc', vq' := StepKeepsInv(b[n - 1], vc, vq, ops[n - 1]);
    LogStep(b[n - 1], vc, vq, ops[n - 1], vq');
  }

  lemma InitialInv(s: State) returns (vc: D.View, vq: Proof.History)
    requires Initial(s)
    ensures Inv(s, vc, vq) && vq.log == []
  {
    var cap, junk :| Runs.Initial(s.q, cap, junk);
    vc := D.InitialInv(s.c);
    vq := Runs.InitialInv(s.q, cap, junk);
  }

  lemma RunKeepsInv(b: seq<State>, ops: seq<Op>, n: nat) returns (vc: D.View, vq: Proof.History)
    requires Run(b, ops) && n < |b|
    ensures RunInv(b, ops, n, vc, vq)
  {
    vc, vq := InitialInv(b[0]);
    for k := 0 to n
      invariant RunInv(b, ops, k, vc, vq)
    {
      vc, vq := RunStep(b, ops, k + 1, vc, vq);
    }
  }

  /** In every run of producer and consumers: no claim reaches beyond tailIndex, no assertion fails, and
      what a finished claim has delivered are the accepted elements at the indices it claimed. */
  lemma Safety(b: seq<State>, ops: seq<Op>, n: nat, t: nat)
    requires Run(b, ops) && n < |b| && t < |b[n].q.cons|
    ensures !b[n].fault && !b[n].q.prod.ProdFault? && !b[n].q.cons[t].ConsFault?
    ensures b[n].q.head <= b[n].q.tail == |Accepted(b, ops, n)|
    ensures b[n].q.cons[t].Idle? ==> var r := b[n].q.cons[t].r;
      r.first <= r.hi <= b[n].q.head && r.got == Accepted(b, ops, n)[r.first..r.hi]
  {
    var vc, vq := RunKeepsInv(b, ops, n);
    SafeState(b[n], vc, vq, t);
  }

  lemma SafeState(s: State, vc: D.View, vq: Proof.History, t: nat)
    requires Inv(s, vc, vq) && t < |s.q.cons|
    ensures !s.fault && !s.q.prod.ProdFault? && !s.q.cons[t].ConsFault? && s.q.head <= s.q.tail <= |vq.log|
    ensures s.q.cons[t].Idle? ==> var r := s.q.cons[t].r;
      r.first <= r.hi <= s.q.head && r.got == vq.log[..s.q.tail][r.first..r.hi]
  {
    assert Proof.ConsOk(s.q.ix, s.q.blocks, vq, t, s.q.cons[t]);
    if s.q.cons[t].Idle? {
      var r := s.q.cons[t].r;
      Prefix(vq.log, r.first, r.hi, s.q.tail);
    }
  }

  /** A claim: the only step that moves headIndex. */
  predicate Claims(s: State, op: Op) { op.Count? && op.t < |s.c.pcs| && s.c.pcs[op.t].Claim? }

  lemma HeadStep(b: seq<State>, ops: seq<Op>, i: nat)
    requires Run(b, ops) && i < |ops|
    ensures if Claims(b[i], ops[i]) then
              && b[i].q.head < b[i + 1].q.head && ops[i].t < |b[i + 1].q.cons|
              && b[i + 1].q.cons[ops[i].t] == Q.LoadHeader(Q.Range(b[i].q.head, b[i].q.head, b[i + 1].q.head, []))
            else b[i + 1].q.head == b[i].q.head
  {
    assert Step(b[i], ops[i], b[i + 1]);
    var vc, vq := RunKeepsInv(b, ops, i);
    HeadOf(b[i], vc, vq, ops[i]);
  }

  lemma HeadOf(s: State, vc: D.View, vq: Proof.History, op: Op)
    requires Inv(s, vc, vq) && Enabled(s, op)
    ensures if Claims(s, op) then
              && s.q.head < Next(s, op).q.head && op.t < |Next(s, op).q.cons|
              && Next(s, op).q.cons[op.t] == Q.LoadHeader(Q.Range(s.q.head, s.q.head, Next(s, op).q.head, []))
            else Next(s, op).q.head == s.q.head
  {
    if Claims(s, op) { D.HeadBelowTail(s.c, vc, op.t); }
    if op.Other? { OtherFrame(s.q, op.op); }
  }

  lemma {:induction false} HeadGrows(b: seq<State>, ops: seq<Op>, i: nat, j: nat)
    requires Run(b, ops) && i <= j < |b|
    ensures b[i].q.head <= b[j].q.head
    decreases j
  {
    if i < j {
      HeadGrows(b, ops, i, j - 1);
      HeadStep(b, ops, j - 1);
    }
  }

  /** Each accepted element below headIndex is claimed, and by one step only: no element is lost, and
      none is delivered twice. */
  lemma {:induction false} ClaimedOnce(b: seq<State>, ops: seq<Op>, n: nat, index: nat) returns (i: nat)
    requires Run(b, ops) && n < |b| && index < b[n].q.head
    ensures i < n && Claims(b[i], ops[i]) && b[i].q.head <= index < b[i + 1].q.head
    ensures forall k :: 0 <= k < n && b[k].q.head <= index < b[k + 1].q.head ==> k == i
    decreases n
  {
    assert n > 0;
    HeadStep(b, ops, n - 1);
    if index < b[n - 1].q.head {
      i := ClaimedOnce(b, ops, n - 1, index);
    } else {
      i := n - 1;
      forall k | 0 <= k < n && b[k].q.head <= index < b[k + 1].q.head ensures k == i {
        if k < n - 1 { HeadGrows(b, ops, k + 1, n - 1); }
      }
    }
  }
}
