/** One producer's queue used without interference: nobody else is at work on it while a thread dequeues
    or the producer enqueues.  Here the operations are run to their ends, instruction by instruction, on
    the machine of module Producer. */
module Quiescent {
  import D = DequeueCounters
  import Q = SubQueue
  import Proof = SubQueueProof
  import Runs = SubQueueRuns
  import W = Wrapping
  import opened BlockIndex
  import opened IndexWords
  import opened Producer
  import opened Sums

  /** Nobody is at work on the queue. */
  predicate Quiet(s: State) {
    && s.q.prod.Ready? && (forall t :: 0 <= t < |s.q.cons| ==> s.q.cons[t].Idle?)
    && forall t :: 0 <= t < |s.c.pcs| ==> s.c.pcs[t].Idle?
  }

  /** A quiet state of the queue when the elements of log have been accepted so far. */
  ghost predicate Settled(s: State, log: seq<Q.Elem>) {
    Quiet(s) && exists vc, vq :: Producer.Inv(s, vc, vq) && vq.log == log
  }

  lemma ReadyLog(s: State, vc: D.View, vq: Proof.History)
    requires Producer.Inv(s, vc, vq) && s.q.prod.Ready?
    ensures |vq.log| == s.q.tail && s.q.head <= s.q.tail && s.c.tail == s.q.tail && s.c.head == s.q.head && |s.c.pcs| == |s.q.cons|
  {
  }

  /** Every quiet state of every run is settled. */
  lemma QuietIsSettled(b: seq<State>, ops: seq<Op>, n: nat)
    requires Run(b, ops) && n < |b| && Quiet(b[n])
    ensures Settled(b[n], Accepted(b, ops, n))
  {
    var vc, vq := RunKeepsInv(b, ops, n);
    ReadyLog(b[n], vc, vq);
    assert vq.log[..b[n].q.tail] == vq.log;
  }

  // ---------------------------------------------------------------------------------------------
  // Progress of a claim
  // ---------------------------------------------------------------------------------------------

  /** A bound on the instructions that consumer c still needs to finish its claim. */
  function Rank(c: Q.Cons): int {
    match c
    case Idle(_) => 0
    case LoadHeader(r) => 10 * (r.hi - r.i) + 9
    case LoadTail(r, _) => 10 * (r.hi - r.i) + 8
    case LoadKey(r, _, _) => 10 * (r.hi - r.i) + 7
    case LoadValue(r, _, _) => 10 * (r.hi - r.i) + 6
    case Copy(r, _, _, _, from) => 10 * (r.hi - r.i) + if r.i == from then 5 else 10
    case SetEmpty(r, _, _, _, _) => 10 * (r.hi - r.i) + 9
    case Unindex(r, _, _, _) => 10 * (r.hi - r.i) + 8
    case FreeBlock(r, _, _, _) => 10 * (r.hi - r.i) + 7
    case ConsFault => 0
  }

  lemma ConsumeRank(q: Q.State, v: Proof.History, t: Q.Tid, q': Q.State)
    requires WellFormed(q.ix) && Q.Enabled(q, Q.Consume(t)) && Proof.ConsOk(q.ix, q.blocks, v, t, q.cons[t])
    requires q' == Q.Next(q, Q.Consume(t)) && !q'.cons[t].ConsFault?
    ensures 0 <= Rank(q'.cons[t]) < Rank(q.cons[t])
    ensures q'.cons == q.cons[t := q'.cons[t]] && q'.cons[t].r.first == q.cons[t].r.first && q'.cons[t].r.hi == q.cons[t].r.hi
    ensures q'.prod == q.prod && q'.tail == q.tail && q'.head == q.head
  {
  }

  /** Every claim ends: an instruction of its consumer lowers the bound, and no other step changes it. */
  lemma ClaimsEnd(b: seq<State>, ops: seq<Op>, i: nat, t: nat)
    requires Run(b, ops) && i < |ops| && t < |b[i].q.cons| && !b[i].q.cons[t].Idle?
    ensures t < |b[i + 1].q.cons|
    ensures if ops[i] == Other(Q.Consume(t)) then 0 <= Rank(b[i + 1].q.cons[t]) < Rank(b[i].q.cons[t])
            else b[i + 1].q.cons[t] == b[i].q.cons[t]
  {
    var s, s' := b[i], b[i + 1];
    assert Step(s, ops[i], s');
    var vc, vq := RunKeepsInv(b, ops, i);
    var vc', vq' := RunKeepsInv(b, ops, i + 1);
    assert Proof.ConsOk(s.q.ix, s.q.blocks, vq, t, s.q.cons[t]);
    if ops[i] == Other(Q.Consume(t)) {
      assert Proof.ConsOk(s'.q.ix, s'.q.blocks, vq', t, s'.q.cons[t]);
      ConsumeRank(s.q, vq, t, s'.q);
    } else {
      BusyStays(s, ops[i], s', t);
    }
  }

  lemma BusyInQueue(q: Q.State, op: Q.Op, q': Q.State, t: nat)
    requires WellFormed(q.ix) && Q.Enabled(q, op) && q' == Q.Next(q, op) && op != Q.Consume(t) && t < |q.cons| && !q.cons[t].Idle?
    ensures t < |q'.cons| && q'.cons[t] == q.cons[t]
  {
  }

  lemma BusyStays(s: State, op: Op, s': State, t: nat)
    requires Step(s, op, s') && op != Other(Q.Consume(t)) && t < |s.q.cons| && !s.q.cons[t].Idle?
    ensures t < |s'.q.cons| && s'.q.cons[t] == s.q.cons[t]
  {
    if op.Other? { BusyInQueue(s.q, op.op, s'.q, t); }
  }

  // ---------------------------------------------------------------------------------------------
  // A dequeue without interference
  // ---------------------------------------------------------------------------------------------

  /** The steps ops lead from s0 to s, through the states of path. */
  predicate IsPath(path: seq<State>, s0: State, ops: seq<Op>, s: State) {
    && |path| == |ops| + 1 && path[0] == s0 && path[|ops|] == s
    && forall i {:trigger ops[i]} :: 0 <= i < |ops| ==> Step(path[i], ops[i], path[i + 1])
  }

  ghost predicate Reaches(s0: State, ops: seq<Op>, s: State) { exists path :: IsPath(path, s0, ops, s) }

  lemma OneMore(s0: State, ops: seq<Op>, s: State, op: Op)
    requires Reaches(s0, ops, s) && Enabled(s, op)
    ensures Reaches(s0, ops + [op], Next(s, op))
  {
    var path :| IsPath(path, s0, ops, s);
    assert IsPath(path + [Next(s, op)], s0, ops + [op], Next(s, op));
  }

  /** A run followed by further steps is a run. */
  lemma RunGoesOn(b: seq<State>, ops: seq<Op>, more: seq<Op>, s: State) returns (b': seq<State>)
    requires Run(b, ops) && Reaches(b[|ops|], more, s)
    ensures b <= b' && Run(b', ops + more) && b'[|ops + more|] == s
  {
    var path :| IsPath(path, b[|ops|], more, s);
    b' := b + path[1..];
    forall i {:trigger (ops + more)[i]} | 0 <= i < |ops + more| ensures Step(b'[i], (ops + more)[i], b'[i + 1]) {
      if i < |ops| { assert Step(b[i], ops[i], b[i + 1]); } else { assert Step(path[i - |ops|], more[i - |ops|], path[i - |ops| + 1]); }
    }
  }

  /** Instructions of one dequeue by thread t. */
  predicate OfDequeue(ops: seq<Op>, t: nat, max: nat) {
    && ops != [] && ops[0] == Dequeue(t, max)
    && forall i :: 0 < i < |ops| ==> ops[i] == Count(t) || ops[i] == Other(Q.Consume(t))
  }

  /** What an instruction on the counters does to the queue: nothing, or the claim. */
  predicate CountDoes(s: State, t: nat, s': State)
    requires t < |s.c.pcs|
  {
    if s.c.pcs[t].Claim? then Counted(s.q, s'.q, t, s.c.pcs[t].actual) && s.c.pcs[t].actual > 0 else s'.q == s.q
  }

  lemma CountFrame(s: State, t: nat, s': State)
    requires Step(s, Count(t), s') && Linked(s) && WellFormed(s.q.ix)
    requires s.c.pcs[t].Claim? ==> s.c.pcs[t].actual > 0 && s.c.head + s.c.pcs[t].actual <= s.c.tail
    ensures s'.c == D.Perform(s.c, t) && CountDoes(s, t, s')
  {
  }

  lemma ClaimFits(s: State, vc: D.View, vq: Proof.History, t: nat)
    requires Producer.Inv(s, vc, vq) && Enabled(s, Count(t))
    ensures Linked(s) && WellFormed(s.q.ix)
    ensures s.c.pcs[t].Claim? ==> s.c.pcs[t].actual > 0 && s.c.head + s.c.pcs[t].actual <= s.c.tail
  {
    D.HeadBelowTail(s.c, vc, t);
  }

  lemma ConsumeAlone(s: State, vc: D.View, vq: Proof.History, t: nat) returns (vq': Proof.History)
    requires Producer.Inv(s, vc, vq) && t < |s.q.cons| && !s.q.cons[t].Idle? && s.q.prod.Ready?
    ensures Enabled(s, Other(Q.Consume(t)))
    ensures var s' := Next(s, Other(Q.Consume(t)));
      && Producer.Inv(s', vc, vq') && vq'.log == vq.log && s'.c == s.c && s'.q.tail == s.q.tail && s'.q.head == s.q.head && s'.q.prod == s.q.prod
      && s'.q.cons == s.q.cons[t := s'.q.cons[t]] && !s'.q.cons[t].ConsFault? && !s.q.cons[t].ConsFault?
      && s'.q.cons[t].r.first == s.q.cons[t].r.first && s'.q.cons[t].r.hi == s.q.cons[t].r.hi
      && 0 <= Rank(s'.q.cons[t]) < Rank(s.q.cons[t])
  {
    assert Proof.ConsOk(s.q.ix, s.q.blocks, vq, t, s.q.cons[t]);
    vq' := OtherStep(s, vc, vq, Q.Consume(t));
    var s' := Next(s, Other(Q.Consume(t)));
    ReadyLog(s, vc, vq);
    assert Proof.ConsOk(s'.q.ix, s'.q.blocks, vq', t, s'.q.cons[t]);
    ConsumeRank(s.q, vq, t, s'.q);
    ReadyLog(s', vc, vq');
    assert vq.log == vq'.log;
  }

  /** The state that counting leads to: the claim, if any, has been made. */
  predicate Counted(q0: Q.State, q: Q.State, t: nat, n: nat) {
    if n == 0 then q == q0
    else t < |q0.cons| && q == q0.(head := q0.head + n, cons := q0.cons[t := Q.LoadHeader(Q.Range(q0.head, q0.head, q0.head + n, []))])
  }

  lemma QuietCounts(s: State, vc: D.View, vq: Proof.History)
    requires Producer.Inv(s, vc, vq) && Quiet(s)
    ensures s.c.head <= s.c.tail && s.c.count == s.c.head + s.c.over && s.c.head == s.q.head && s.c.tail == s.q.tail
  {
    SumZero(s.c.pcs, D.InFlight);
    D.ClaimedIsGranted(s.c, vc);
  }

  /** Where the loop on the counters stands: j bounds the instructions left, which lead to state f. */
  ghost predicate Counting(s0: State, s: State, t: nat, j: int, f: D.State) {
    && s.q.prod.Ready? && t < |s.c.pcs| == |s0.c.pcs| && s0.c.pcs[t].Idle? && f.pcs == s0.c.pcs && j >= 0 && D.Solo(s.c, t, j) == f
    && if s.c.pcs[t].Idle? then s.q.head >= s0.q.head && Counted(s0.q, s.q, t, s.q.head - s0.q.head) else s.q == s0.q
  }

  /** A state that thread t has reached from s0 by steps of its own, with its history. */
  ghost predicate Reached(s0: State, s: State, t: nat, max: nat, ops: seq<Op>, vc: D.View, vq: Proof.History, log: seq<Q.Elem>) {
    Producer.Inv(s, vc, vq) && vq.log == log && Reaches(s0, ops, s) && OfDequeue(ops, t, max)
  }

  lemma DequeueStarts(s: State, vc: D.View, vq: Proof.History, t: nat, max: nat, s': State) returns (ops: seq<Op>, j: nat, f: D.State)
    requires Producer.Inv(s, vc, vq) && Quiet(s) && Step(s, Dequeue(t, max), s')
    ensures Reached(s, s', t, max, ops, vc, vq, vq.log) && Counting(s, s', t, j, f)
    ensures f.head == s.q.head + Min(max, s.q.tail - s.q.head) && s.q.head <= s.q.tail
  {
    D.StepKeepsInv(s.c, vc, D.Start(t, max));
    QuietCounts(s, vc, vq);
    D.AloneTakesAll(s.c, t, max);
    ops, j, f := [Dequeue(t, max)], 6, D.Solo(s'.c, t, 6);
    assert IsPath([s, s'], s, ops, s');
  }

  lemma CountingGoesOn(s0: State, s: State, t: nat, j: nat, f: D.State, s': State)
    requires Counting(s0, s, t, j, f) && !s.c.pcs[t].Idle? && Linked(s) && s'.c == D.Perform(s.c, t) && CountDoes(s, t, s') && s'.q.prod == s.q.prod
    ensures j > 0 && Counting(s0, s', t, j - 1, f)
  {
  }

  method CountOne(s0: State, s: State, t: nat, max: nat, ghost ops: seq<Op>, ghost vc: D.View, ghost vq: Proof.History, ghost j: nat, ghost f: D.State)
    returns (s': State, ghost ops': seq<Op>, ghost vc': D.View, ghost vq': Proof.History)
    requires Reached(s0, s, t, max, ops, vc, vq, vq.log) && Counting(s0, s, t, j, f) && !s.c.pcs[t].Idle?
    ensures j > 0 && Reached(s0, s', t, max, ops', vc', vq', vq.log) && Counting(s0, s', t, j - 1, f)
  {
    s' := Next(s, Count(t));
    ClaimFits(s, vc, vq, t);
    CountFrame(s, t, s');
    CountingGoesOn(s0, s, t, j, f, s');
    vq' := CountStep(s, vc, vq, t);
    vc' := D.NextView(s.c, vc, D.Continue(t));
    OneMore(s0, ops, s, Count(t));
    ops' := ops + [Count(t)];
  }

  lemma CountingEnds(s0: State, s: State, vc: D.View, vq: Proof.History, t: nat, j: nat, f: D.State)
    requires Producer.Inv(s, vc, vq) && Counting(s0, s, t, j, f) && s.c.pcs[t].Idle?
    ensures s.c.pcs == s0.c.pcs && f.head >= s0.q.head && Counted(s0.q, s.q, t, f.head - s0.q.head)
  {
  }

  /** The first part of dequeue or dequeue_bulk by thread t: the instructions on the counters.  Alone, it
      settles for everything there is, up to max. */
  method CountAll(s0: State, s1: State, t: nat, max: nat, ghost ops1: seq<Op>, ghost vc1: D.View, ghost vq1: Proof.History, ghost j: nat, ghost f: D.State)
    returns (s: State, ghost ops: seq<Op>, ghost vc: D.View, ghost vq: Proof.History)
    requires Reached(s0, s1, t, max, ops1, vc1, vq1, vq1.log) && Counting(s0, s1, t, j, f)
    ensures Reached(s0, s, t, max, ops, vc, vq, vq1.log) && s.c.pcs == s0.c.pcs
    ensures f.head >= s0.q.head && Counted(s0.q, s.q, t, f.head - s0.q.head)
    decreases j
  {
    if s1.c.pcs[t].Idle? {
      CountingEnds(s0, s1, vc1, vq1, t, j, f);
      s, ops, vc, vq := s1, ops1, vc1, vq1;
    } else {
      ghost var ops2, vc2, vq2;
      var s2;
      s2, ops2, vc2, vq2 := CountOne(s0, s1, t, max, ops1, vc1, vq1, j, f);
      s, ops, vc, vq := CountAll(s0, s2, t, max, ops2, vc2, vq2, j - 1, f);
    }
  }

  /** Thread t is moving out the n elements it has claimed from the quiet state s0. */
  predicate Moving(s0: State, s: State, t: nat, n: nat) {
    && s.q.prod.Ready? && s.c.pcs == s0.c.pcs && s.q.tail == s0.q.tail && s.q.head == s0.q.head + n
    && t < |s.q.cons| == |s0.q.cons| && s.q.cons == s0.q.cons[t := s.q.cons[t]] && !s.q.cons[t].ConsFault?
    && s.q.cons[t].r.first == s0.q.head && s.q.cons[t].r.hi == s0.q.head + n
  }

  method MoveOne(s0: State, s: State, t: nat, max: nat, n: nat, ghost ops: seq<Op>, ghost vc: D.View, ghost vq: Proof.History)
    returns (s': State, ghost ops': seq<Op>, ghost vq': Proof.History)
    requires Reached(s0, s, t, max, ops, vc, vq, vq.log) && Moving(s0, s, t, n) && !s.q.cons[t].Idle?
    ensures Reached(s0, s', t, max, ops', vc, vq', vq.log) && Moving(s0, s', t, n)
    ensures 0 <= Rank(s'.q.cons[t]) < Rank(s.q.cons[t])
  {
    vq' := ConsumeAlone(s, vc, vq, t);
    OneMore(s0, ops, s, Other(Q.Consume(t)));
    s', ops' := Next(s, Other(Q.Consume(t))), ops + [Other(Q.Consume(t))];
  }

  lemma MovingEnds(s0: State, s: State, t: nat, n: nat, vc: D.View, vq: Proof.History)
    requires Producer.Inv(s, vc, vq) && Moving(s0, s, t, n) && s.q.cons[t].Idle? && Quiet(s0)
    ensures Settled(s, vq.log) && s0.q.head + n <= |vq.log| && s.q.cons[t].r.got == vq.log[s0.q.head..s0.q.head + n]
  {
    assert Proof.ConsOk(s.q.ix, s.q.blocks, vq, t, s.q.cons[t]);
  }

  /** The second part: the elements claimed are moved out. */
  method MoveAll(s0: State, s1: State, t: nat, max: nat, n: nat, ghost ops1: seq<Op>, ghost vc: D.View, ghost vq1: Proof.History)
    returns (s: State, ghost ops: seq<Op>)
    requires Quiet(s0) && Reached(s0, s1, t, max, ops1, vc, vq1, vq1.log) && Moving(s0, s1, t, n)
    ensures Settled(s, vq1.log) && Reaches(s0, ops, s) && OfDequeue(ops, t, max) && Moving(s0, s, t, n)
    ensures s0.q.head + n <= |vq1.log| && s.q.cons[t].r.got == vq1.log[s0.q.head..s0.q.head + n]
    decreases Rank(s1.q.cons[t])
  {
    if s1.q.cons[t].Idle? {
      MovingEnds(s0, s1, t, n, vc, vq1);
      s, ops := s1, ops1;
    } else {
      ghost var ops2, vq2;
      var s2;
      s2, ops2, vq2 := MoveOne(s0, s1, t, max, n, ops1, vc, vq1);
      s, ops := MoveAll(s0, s2, t, max, n, ops2, vc, vq2);
    }
  }

  lemma ClaimMoves(s0: State, s1: State, t: nat, n: nat, vc: D.View, vq: Proof.History)
    requires Quiet(s0) && Producer.Inv(s1, vc, vq) && s1.c.pcs == s0.c.pcs && Counted(s0.q, s1.q, t, n)
    ensures if n > 0 then Moving(s0, s1, t, n) else Settled(s1, vq.log)
  {
  }

  method Deliver(s0: State, s1: State, t: nat, max: nat, n: nat, ghost ops1: seq<Op>, ghost vc: D.View, ghost vq: Proof.History)
    returns (s: State, got: seq<Q.Elem>, ghost ops: seq<Op>)
    requires Quiet(s0) && Reached(s0, s1, t, max, ops1, vc, vq, vq.log) && s1.c.pcs == s0.c.pcs && Counted(s0.q, s1.q, t, n)
    requires s0.q.head + n <= |vq.log|
    ensures Settled(s, vq.log) && Reaches(s0, ops, s) && OfDequeue(ops, t, max)
    ensures s.q.tail == s0.q.tail && |s.q.cons| == |s0.q.cons| && s.q.head == s0.q.head + n
    ensures got == vq.log[s0.q.head..s0.q.head + n]
  {
    ClaimMoves(s0, s1, t, n, vc, vq);
    if n > 0 {
      s, ops := MoveAll(s0, s1, t, max, n, ops1, vc, vq);
      got := s.q.cons[t].r.got;
    } else {
      s, ops, got := s1, ops1, [];
    }
  }

  method Perform(s0: State, s1: State, t: nat, max: nat, ghost ops1: seq<Op>, ghost vc1: D.View, ghost vq1: Proof.History, ghost j: nat, ghost f: D.State)
    returns (s: State, got: seq<Q.Elem>, ghost ops: seq<Op>)
    requires Quiet(s0) && Reached(s0, s1, t, max, ops1, vc1, vq1, vq1.log) && Counting(s0, s1, t, j, f)
    requires s0.q.head <= f.head <= |vq1.log|
    ensures Settled(s, vq1.log) && Reaches(s0, ops, s) && OfDequeue(ops, t, max)
    ensures s.q.tail == s0.q.tail && |s.q.cons| == |s0.q.cons| && s.q.head == f.head
    ensures got == vq1.log[s0.q.head..f.head]
  {
    ghost var ops2, vc, vq;
    var s2;
    s2, ops2, vc, vq := CountAll(s0, s1, t, max, ops1, vc1, vq1, j, f);
    s, got, ops := Deliver(s0, s2, t, max, s2.q.head - s0.q.head, ops2, vc, vq);
  }

  /** A dequeue by thread t while nobody else is at work takes the oldest elements, as many as it wants
      and there are, in order; it comes back empty-handed only from an empty queue. */
  method DequeueAlone(s0: State, t: nat, max: nat, ghost log: seq<Q.Elem>)
    returns (s: State, got: seq<Q.Elem>, ghost ops: seq<Op>)
    requires Settled(s0, log) && Enabled(s0, Dequeue(t, max))
    ensures Settled(s, log) && Reaches(s0, ops, s) && OfDequeue(ops, t, max)
    ensures s0.q.head <= s0.q.tail == s.q.tail == |log| && |s.q.cons| == |s0.q.cons|
    ensures var n := Min(max, s0.q.tail - s0.q.head);
      s.q.head == s0.q.head + n && got == log[s0.q.head..s0.q.head + n]
    ensures got == [] <==> s0.q.head == s0.q.tail
  {
    ghost var vc, vq :| Producer.Inv(s0, vc, vq) && vq.log == log;
    ReadyLog(s0, vc, vq);
    var s1 := Next(s0, Dequeue(t, max));
    ghost var ops1, j, f := DequeueStarts(s0, vc, vq, t, max, s1);
    s, got, ops := Perform(s0, s1, t, max, ops1, vc, vq, j, f);
  }

  /** The same at the end of any run that has come to rest: the run goes on with the instructions of this
      dequeue and comes to rest again, and what it delivers are the accepted elements from head on. */
  method DequeueAfterRun(ghost b: seq<State>, ghost ops: seq<Op>, s0: State, t: nat, max: nat)
    returns (s: State, got: seq<Q.Elem>, ghost b': seq<State>, ghost more: seq<Op>)
    requires Run(b, ops) && s0 == b[|ops|] && Quiet(s0) && Enabled(s0, Dequeue(t, max))
    ensures b <= b' && Run(b', ops + more) && b'[|ops + more|] == s && OfDequeue(more, t, max) && Quiet(s)
    ensures s0.q.head <= s0.q.tail == |Accepted(b, ops, |ops|)|
    ensures var n := Min(max, s0.q.tail - s0.q.head);
      s.q.head == s0.q.head + n && s.q.tail == s0.q.tail && got == Accepted(b, ops, |ops|)[s0.q.head..s0.q.head + n]
    ensures got == [] <==> s0.q.head == s0.q.tail
  {
    QuietIsSettled(b, ops, |ops|);
    s, got, more := DequeueAlone(s0, t, max, Accepted(b, ops, |ops|));
    b' := RunGoesOn(b, ops, more, s);
  }

  // ---------------------------------------------------------------------------------------------
  // An enqueue without interference, while there is room and the pool has blocks enough
  // ---------------------------------------------------------------------------------------------

  predicate Allocates(prod: Q.Prod) {
    prod.Check? || prod.NeedIndex? || prod.StoreKey? || prod.StoreTail? || prod.GetBlock? || prod.StoreValue?
  }

  /** The call is on its way to success. */
  predicate Going(prod: Q.Prod, items: seq<Q.Elem>) { (Allocates(prod) || prod.Write? || prod.Publish?) && prod.c.items == items }

  /** The blocks that the call will still take from the pool. */
  function Missing(prod: Q.Prod): int {
    if prod.StoreValue? then prod.c.left - 1 else if Allocates(prod) then prod.c.left else 0
  }

  /** A bound on the instructions that the call still needs. */
  function Work(tail: nat, prod: Q.Prod): int {
    match prod
    case Write(c, _, i, stop) => 3 * (tail + |c.items| - i) + if i < stop then 2 else 4
    case Publish(_) => 1
    case Check(c) => 3 * |c.items| + 10 * c.left + 14
    case NeedIndex(c) => 3 * |c.items| + 10 * c.left + 13
    case StoreKey(c) => 3 * |c.items| + 10 * c.left + 12
    case StoreTail(c, _) => 3 * |c.items| + 10 * c.left + 11
    case GetBlock(c, _) => 3 * |c.items| + 10 * c.left + 10
    case StoreValue(c, _, _) => 3 * |c.items| + 10 * c.left + 9
    case _ => 0
  }

  lemma NotAtEnd(q: Q.State, v: Proof.History)
    requires Proof.ProdOk(q.ix, q.blocks, q.tail, q.tailBlock, v, q.prod)
    ensures q.prod.Write? && q.prod.i >= q.prod.stop && q.tailBlock != q.prod.end ==> q.prod.i < q.tail + |q.prod.c.items|
    ensures 0 <= Work(q.tail, q.prod)
  {
    if q.prod.Write? && q.prod.i >= q.prod.stop && q.tailBlock != q.prod.end {
      if v.w + 1 == Q.Blocks(q.tail + |q.prod.c.items|) { Proof.LastIsEnd(q, v); }
    }
  }

  lemma AllocateWork(q: Q.State, items: seq<Q.Elem>, b: Block, junk: Ptr, q': Q.State)
    requires WellFormed(q.ix) && Q.Enabled(q, Q.Produce(true, b, junk)) && q' == Q.Next(q, Q.Produce(true, b, junk)) && !q'.prod.ProdFault?
    requires Going(q.prod, items) && Allocates(q.prod) && (q.prod.Check? ==> Q.RoomFor(q.head, q.tail, q.prod.c))
    ensures Work(q.tail, q'.prod) < Work(q.tail, q.prod) && Going(q'.prod, items)
    ensures q'.cons == q.cons && q'.head == q.head && q'.tail == q.tail && |q'.free| - Missing(q'.prod) == |q.free| - Missing(q.prod)
  {
  }

  lemma ProduceWork(q: Q.State, items: seq<Q.Elem>, b: Block, junk: Ptr, q': Q.State)
    requires WellFormed(q.ix) && Q.Enabled(q, Q.Produce(true, b, junk)) && q' == Q.Next(q, Q.Produce(true, b, junk)) && !q'.prod.ProdFault?
    requires Going(q.prod, items) && (q.prod.Check? ==> Q.RoomFor(q.head, q.tail, q.prod.c))
    requires q.prod.Write? && q.prod.i >= q.prod.stop && q.tailBlock != q.prod.end ==> q.prod.i < q.tail + |items|
    ensures Work(q.tail, q'.prod) < Work(q.tail, q.prod)
    ensures if q.prod.Publish? then q'.prod == Q.Ready(true) else Going(q'.prod, items)
    ensures q'.cons == q.cons && q'.head == q.head && q'.tail == q.tail + if q.prod.Publish? then |items| else 0
    ensures |q'.free| - Missing(q'.prod) == |q.free| - Missing(q.prod)
  {
    if Allocates(q.prod) { AllocateWork(q, items, b, junk, q'); }
  }

  /** The room that a call of n elements needs at most. */
  predicate RoomNeeded(q: Q.State, n: nat) { q.tail + n + 2 * Q.BLOCK_SIZE - q.head < Pow2(Q.INDEX_BITS - 1) }

  lemma RoomIsThere(q: Q.State, v: Proof.History)
    requires Proof.ProdOk(q.ix, q.blocks, q.tail, q.tailBlock, v, q.prod) && q.head <= q.tail
    requires q.prod.Check? && RoomNeeded(q, |q.prod.c.items|)
    ensures Q.RoomFor(q.head, q.tail, q.prod.c)
  {
    W.RoomCheckIsExact(q.head, Q.BLOCK_SIZE * (Q.Blocks(q.tail + |q.prod.c.items|) - q.prod.c.left), Q.INDEX_BITS);
  }

  /** The call begun in s0 is on its way, with blocks enough in the pool. */
  predicate Filling(s0: State, s: State, items: seq<Q.Elem>) {
    && Going(s.q.prod, items) && s.c.pcs == s0.c.pcs && s.q.cons == s0.q.cons && s.q.head == s0.q.head && s.q.tail == s0.q.tail
    && |s.q.free| - Missing(s.q.prod) == |s0.q.free| - (Q.Blocks(s0.q.tail + |items|) - Q.Blocks(s0.q.tail)) >= 0
    && RoomNeeded(s.q, |items|)
  }

  /** The call is over: it has taken its blocks from the pool. */
  predicate Filled(s0: State, s: State, items: seq<Q.Elem>) {
    && s.q.prod == Q.Ready(true) && s.c.pcs == s0.c.pcs && s.q.cons == s0.q.cons && s.q.head == s0.q.head && s.q.tail == s0.q.tail + |items|
    && |s.q.free| == |s0.q.free| - (Q.Blocks(s0.q.tail + |items|) - Q.Blocks(s0.q.tail))
  }

  /** Instructions of one enqueue of the producer. */
  predicate OfEnqueue(ops: seq<Op>, items: seq<Q.Elem>) {
    && ops != [] && ops[0] == Other(Q.StartEnqueue(items))
    && forall i :: 0 < i < |ops| ==> ops[i].Other? && ops[i].op.Produce?
  }

  lemma PublishCounts(s: State, op: Op, s': State)
    requires Step(s, op, s') && op.Other?
    ensures s'.c.pcs == s.c.pcs && s'.q == Q.Next(s.q, op.op)
  {
  }

  /** A state that the producer has reached from s0 in its call, with its history. */
  ghost predicate Enqueueing(s0: State, s: State, items: seq<Q.Elem>, ops: seq<Op>, vc: D.View, vq: Proof.History, log: seq<Q.Elem>) {
    Producer.Inv(s, vc, vq) && vq.log[..s.q.tail] == log && Reaches(s0, ops, s) && OfEnqueue(ops, items)
  }

  lemma EnqueueStarts(s: State, vc: D.View, vq: Proof.History, items: seq<Q.Elem>, s': State) returns (ops: seq<Op>, vq': Proof.History)
    requires Producer.Inv(s, vc, vq) && Quiet(s) && Step(s, Other(Q.StartEnqueue(items)), s')
    requires RoomNeeded(s.q, |items|) && |s.q.free| >= Q.Blocks(s.q.tail + |items|) - Q.Blocks(s.q.tail)
    ensures Enqueueing(s, s', items, ops, vc, vq', vq.log) && Filling(s, s', items)
  {
    vq' := OtherStep(s, vc, vq, Q.StartEnqueue(items));
    LogStep(s, vc, vq, Other(Q.StartEnqueue(items)), vq');
    ops := [Other(Q.StartEnqueue(items))];
    assert IsPath([s, s'], s, ops, s');
    assert vq.log[..s.q.tail] == vq.log;
  }

  lemma FillingGoesOn(s0: State, s: State, items: seq<Q.Elem>, b: Block, s': State)
    requires Filling(s0, s, items) && Step(s, Other(Q.Produce(true, b, Null)), s') && !s'.q.prod.ProdFault?
    requires s.q.prod.Check? ==> Q.RoomFor(s.q.head, s.q.tail, s.q.prod.c)
    requires s.q.prod.Write? && s.q.prod.i >= s.q.prod.stop && s.q.tailBlock != s.q.prod.end ==> s.q.prod.i < s.q.tail + |items|
    ensures if s.q.prod.Publish? then Filled(s0, s', items) else Filling(s0, s', items) && Work(s.q.tail, s'.q.prod) < Work(s.q.tail, s.q.prod)
    ensures Published(s, Other(Q.Produce(true, b, Null))) == if s.q.prod.Publish? then items else []
  {
    PublishCounts(s, Other(Q.Produce(true, b, Null)), s');
    ProduceWork(s.q, items, b, Null, s'.q);
  }

  lemma FillingFacts(s0: State, s: State, vc: D.View, vq: Proof.History, items: seq<Q.Elem>)
    requires Producer.Inv(s, vc, vq) && Filling(s0, s, items)
    ensures 0 <= Work(s.q.tail, s.q.prod)
    ensures s.q.prod.Check? ==> Q.RoomFor(s.q.head, s.q.tail, s.q.prod.c)
    ensures s.q.prod.Write? && s.q.prod.i >= s.q.prod.stop && s.q.tailBlock != s.q.prod.end ==> s.q.prod.i < s.q.tail + |items|
  {
    NotAtEnd(s.q, vq);
    if s.q.prod.Check? { RoomIsThere(s.q, vq); }
  }

  lemma EnqueueLog(s: State, vc: D.View, vq: Proof.History, b: Block, s': State) returns (vq': Proof.History)
    requires Producer.Inv(s, vc, vq) && Step(s, Other(Q.Produce(true, b, Null)), s')
    ensures Producer.Inv(s', vc, vq') && !s'.q.prod.ProdFault?
    ensures vq'.log[..s'.q.tail] == vq.log[..s.q.tail] + Published(s, Other(Q.Produce(true, b, Null)))
  {
    vq' := OtherStep(s, vc, vq, Q.Produce(true, b, Null));
    LogStep(s, vc, vq, Other(Q.Produce(true, b, Null)), vq');
  }

  lemma EnqueueNeeds(s0: State, s: State, items: seq<Q.Elem>, vc: D.View, vq: Proof.History)
    requires Producer.Inv(s, vc, vq) && Filling(s0, s, items)
    ensures s.q.prod.GetBlock? ==> s.q.free != {}
    ensures forall b :: (s.q.prod.GetBlock? ==> b in s.q.free) ==> Enabled(s, Other(Q.Produce(true, b, Null)))
  {
  }

  lemma OneMoreOfEnqueue(s0: State, s: State, items: seq<Q.Elem>, ops: seq<Op>, op: Op, s': State)
    requires Reaches(s0, ops, s) && OfEnqueue(ops, items) && op.Other? && op.op.Produce? && Step(s, op, s')
    ensures Reaches(s0, ops + [op], s') && OfEnqueue(ops + [op], items)
  {
    OneMore(s0, ops, s, op);
  }

  method EnqueueOne(s0: State, s: State, items: seq<Q.Elem>, ghost ops: seq<Op>, ghost vc: D.View, ghost vq: Proof.History, ghost log: seq<Q.Elem>)
    returns (s': State, ghost ops': seq<Op>, ghost vq': Proof.History)
    requires Enqueueing(s0, s, items, ops, vc, vq, log) && Filling(s0, s, items)
    ensures Enqueueing(s0, s', items, ops', vc, vq', log + if s.q.prod.Publish? then items else [])
    ensures if s.q.prod.Publish? then Filled(s0, s', items)
            else Filling(s0, s', items) && 0 <= Work(s.q.tail, s.q.prod) && Work(s.q.tail, s'.q.prod) < Work(s.q.tail, s.q.prod)
  {
    EnqueueNeeds(s0, s, items, vc, vq);
    var b: Block := 0;
    if s.q.prod.GetBlock? { b :| b in s.q.free; }
    var op := Other(Q.Produce(true, b, Null));
    s' := Next(s, op);
    FillingFacts(s0, s, vc, vq, items);
    vq' := EnqueueLog(s, vc, vq, b, s');
    FillingGoesOn(s0, s, items, b, s');
    OneMoreOfEnqueue(s0, s, items, ops, op, s');
    ops' := ops + [op];
  }

  lemma FilledIsSettled(s0: State, s: State, items: seq<Q.Elem>, vc: D.View, vq: Proof.History)
    requires Quiet(s0) && Producer.Inv(s, vc, vq) && Filled(s0, s, items)
    ensures Settled(s, vq.log[..s.q.tail])
  {
    assert vq.log[..s.q.tail] == vq.log;
  }

  /** The instructions of the call, after its beginning. */
  method EnqueueRest(s0: State, s1: State, items: seq<Q.Elem>, ghost ops1: seq<Op>, ghost vc: D.View, ghost vq1: Proof.History, ghost log: seq<Q.Elem>)
    returns (s: State, ghost ops: seq<Op>)
    requires Quiet(s0) && Enqueueing(s0, s1, items, ops1, vc, vq1, log) && Filling(s0, s1, items)
    ensures Settled(s, log + items) && Filled(s0, s, items) && Reaches(s0, ops, s) && OfEnqueue(ops, items)
    decreases Work(s0.q.tail, s1.q.prod)
  {
    ghost var ops2, vq2;
    var s2;
    s2, ops2, vq2 := EnqueueOne(s0, s1, items, ops1, vc, vq1, log);
    if s1.q.prod.Publish? {
      FilledIsSettled(s0, s2, items, vc, vq2);
      s, ops := s2, ops2;
    } else {
      assert log + [] == log;
      s, ops := EnqueueRest(s0, s2, items, ops2, vc, vq2, log);
    }
  }

  /** An enqueue or enqueue_bulk while nobody else is at work, there is room and the pool has blocks enough:
      the elements are appended in order, and one block is taken for each that the elements begin. */
  method EnqueueAlone(s0: State, items: seq<Q.Elem>, ghost log: seq<Q.Elem>) returns (s: State, ghost ops: seq<Op>)
    requires Settled(s0, log) && RoomNeeded(s0.q, |items|) && |s0.q.free| >= Q.Blocks(s0.q.tail + |items|) - Q.Blocks(s0.q.tail)
    ensures Settled(s, log + items) && Filled(s0, s, items) && Reaches(s0, ops, s) && OfEnqueue(ops, items)
  {
    ghost var vc, vq :| Producer.Inv(s0, vc, vq) && vq.log == log;
    ReadyLog(s0, vc, vq);
    var s1 := Next(s0, Other(Q.StartEnqueue(items)));
    ghost var ops1, vq1 := EnqueueStarts(s0, vc, vq, items, s1);
    s, ops := EnqueueRest(s0, s1, items, ops1, vc, vq1, log);
  }

  // ---------------------------------------------------------------------------------------------
  // A new queue
  // ---------------------------------------------------------------------------------------------

  const INITIAL_INDEX_SIZE: nat := 32

  function Numbers(n: nat): (r: set<Block>)
    ensures |r| == n && forall b: Block :: b in r <==> b < n
  { if n == 0 then {} else Numbers(n - 1) + {n - 1} }

  /** A producer just made, for so many consumer threads, with so many blocks in the pool. */
  function New(threads: nat, blocks: nat): State {
    var q := Q.State(Fresh(INITIAL_INDEX_SIZE, Null), 0, 0, seq(blocks, _ => Q.Mem(seq(Q.BLOCK_SIZE, _ => Q.Empty), 0, Null)),
                     Numbers(blocks), {}, Null, Q.Ready(true), seq(threads, _ => Q.Idle(Q.Range(0, 0, 0, []))));
    State(D.State(0, 0, 0, 0, seq(threads, _ => D.Idle)), q, false)
  }

  lemma NewIsSettled(threads: nat, blocks: nat)
    ensures Settled(New(threads, blocks), [])
  {
    var s := New(threads, blocks);
    assert Runs.Initial(s.q, INITIAL_INDEX_SIZE, Null);
    var vc, vq := InitialInv(s);
  }
}
