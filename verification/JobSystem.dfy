/** The job system: a counter of pending jobs, a queue, worker threads that run jobs until they are told
    to quit, and one submitting thread that helps while it waits.  A job is whatever the submitter hands
    in; running it is one step, recorded with the thread that ran it. */
module JobSystem {
  import opened Sums

  type Job = string

  datatype Worker = TestQuit | WaitForJob | Running(j: Job) | Finishing | Exited

  datatype Main =
    | Idle
    | Counting(j: Job)      // addJob: pendingJobs.fetch_add(1)
    | Enqueueing(j: Job)    //   workerJobQueue.enqueue, whose result is ignored
    | Checking              // waitForAllJobsFinished: load pendingJobs
    | Trying                //   workerJobQueue.try_dequeue
    | Helping(j: Job)       //   run the job
    | Helped                //   pendingJobs.fetch_add(-1)
    | Quitting              // shutdownJobSystem: quit = true
    | Joining(w: nat)       //   threadPool[w].join()

  /** ran: for each worker, and last for the main thread, the jobs it has run, in order. */
  datatype State = State(pending: int, queue: seq<Job>, quit: bool, main: Main, workers: seq<Worker>, ran: seq<seq<Job>>)

  /** ok: whether the enqueue succeeds, or the dequeue finds a job; k: which of the queued jobs.  A dequeue
      may come back empty-handed at any time. */
  datatype Op =
    | Submit(j: Job)
    | WaitForAll
    | Shutdown
    | MainStep(ok: bool, k: nat)
    | WorkerStep(w: nat, ok: bool, k: nat)

  predicate Enabled(s: State, op: Op) {
    && |s.ran| == |s.workers| + 1
    && match op
       case Submit(_) => s.main.Idle?
       case WaitForAll => s.main.Idle?
       case Shutdown => s.main.Idle?
       case MainStep(ok, k) =>
         && !s.main.Idle? && (s.main.Trying? && ok ==> k < |s.queue|)
         && (s.main.Joining? && s.main.w < |s.workers| ==> s.workers[s.main.w].Exited?)
       case WorkerStep(w, ok, k) => w < |s.workers| && !s.workers[w].Exited? && (s.workers[w].WaitForJob? && ok ==> k < |s.queue|)
  }

  function Without(q: seq<Job>, k: nat): seq<Job>
    requires k < |q|
  { q[..k] + q[k + 1..] }

  function Next(s: State, op: Op): State
    requires Enabled(s, op)
  {
    match op
    case Submit(j) => s.(main := Counting(j))
    case WaitForAll => s.(main := Checking)
    case Shutdown => s.(main := Quitting)
    case MainStep(ok, k) => MainNext(s, ok, k)
    case WorkerStep(w, ok, k) => WorkerNext(s, w, ok, k)
  }

  function MainNext(s: State, ok: bool, k: nat): State
    requires Enabled(s, MainStep(ok, k))
  {
    var m := |s.workers|;
    match s.main
    case Counting(j) => s.(pending := s.pending + 1, main := Enqueueing(j))
    case Enqueueing(j) => s.(queue := if ok then s.queue + [j] else s.queue, main := Idle)
    case Checking => s.(main := if s.pending != 0 then Trying else Idle)
    case Trying => if ok then s.(queue := Without(s.queue, k), main := Helping(s.queue[k])) else s.(main := Checking)
    case Helping(j) => s.(ran := s.ran[m := s.ran[m] + [j]], main := Helped)
    case Helped => s.(pending := s.pending - 1, main := Checking)
    case Quitting => s.(quit := true, main := Joining(0))
    case Joining(w) => s.(main := if w < |s.workers| then Joining(w + 1) else Idle)
  }

  function WorkerNext(s: State, w: nat, ok: bool, k: nat): State
    requires Enabled(s, WorkerStep(w, ok, k))
  {
    match s.workers[w]
    case TestQuit => s.(workers := s.workers[w := if s.quit then Exited else WaitForJob])
    case WaitForJob =>
      if ok then s.(queue := Without(s.queue, k), workers := s.workers[w := Running(s.queue[k])])
      else s.(workers := s.workers[w := TestQuit])
    case Running(j) => s.(ran := s.ran[w := s.ran[w] + [j]], workers := s.workers[w := Finishing])
    case Finishing => s.(pending := s.pending - 1, workers := s.workers[w := TestQuit])
  }

  // ---------------------------------------------------------------------------------------------
  // Accounting
  // ---------------------------------------------------------------------------------------------

  /** History: the jobs submitted, and those whose enqueue failed. */
  datatype View = View(submitted: seq<Job>, lost: seq<Job>)

  /** Jobs counted and not yet finished that a thread has in its hands. */
  function Owed(w: Worker): int { if w.Running? || w.Finishing? then 1 else 0 }

  function MainOwed(m: Main): int { if m.Enqueueing? || m.Helping? || m.Helped? then 1 else 0 }

  /** How often job j occurs in a sequence, in a worker's hands, in the main thread's hands. */
  function Times(q: seq<Job>, j: Job): nat { multiset(q)[j] }

  function InSeq(j: Job): seq<Job> -> int { q => Times(q, j) }

  function InHand(j: Job): Worker -> int { w => if w == Running(j) then 1 else 0 }

  function InMainHand(m: Main, j: Job): int { if m == Counting(j) || m == Enqueueing(j) || m == Helping(j) then 1 else 0 }

  lemma TimesAppend(q: seq<Job>, x: Job, j: Job)
    ensures Times(q + [x], j) == Times(q, j) + if x == j then 1 else 0
  {
  }

  lemma TimesWithout(q: seq<Job>, k: nat, j: Job)
    requires k < |q|
    ensures Times(q, j) == Times(Without(q, k), j) + if q[k] == j then 1 else 0
  {
    assert q == q[..k] + [q[k]] + q[k + 1..];
  }

  function AllRan(ran: seq<seq<Job>>): multiset<Job> {
    if ran == [] then multiset{} else AllRan(ran[..|ran| - 1]) + multiset(ran[|ran| - 1])
  }

  lemma {:induction false} AllRanCounts(ran: seq<seq<Job>>, j: Job)
    ensures AllRan(ran)[j] == Sum(ran, InSeq(j))
    decreases |ran|
  {
    if ran != [] { AllRanCounts(ran[..|ran| - 1], j); }
  }

  /** Every submission of j is with the submitter, in the queue, in a thread's hands, run, or lost. */
  ghost predicate Balanced(s: State, v: View, j: Job) {
    Times(v.submitted, j) ==
      Sum(s.ran, InSeq(j)) + Times(s.queue, j) + Sum(s.workers, InHand(j)) + InMainHand(s.main, j) + Times(v.lost, j)
  }

  ghost predicate Counted(s: State, v: View) { s.pending == MainOwed(s.main) + |s.queue| + Sum(s.workers, Owed) + |v.lost| }

  ghost predicate Inv(s: State, v: View) {
    |s.ran| == |s.workers| + 1 && Counted(s, v) && forall j {:trigger Balanced(s, v, j)} :: Balanced(s, v, j)
  }

  function NextView(s: State, v: View, op: Op): View {
    match op
    case Submit(j) => v.(submitted := v.submitted + [j])
    case MainStep(ok, _) => if s.main.Enqueueing? && !ok then v.(lost := v.lost + [s.main.j]) else v
    case _ => v
  }

  lemma MainBalanced(s: State, v: View, ok: bool, k: nat, j: Job)
    requires Balanced(s, v, j) && Enabled(s, MainStep(ok, k)) && !s.main.Helping?
    ensures Balanced(MainNext(s, ok, k), NextView(s, v, MainStep(ok, k)), j)
  {
    if s.main.Enqueueing? {
      TimesAppend(s.queue, s.main.j, j);
      TimesAppend(v.lost, s.main.j, j);
    } else if s.main.Trying? && ok {
      TimesWithout(s.queue, k, j);
    }
  }

  lemma HelpBalanced(s: State, v: View, ok: bool, k: nat, j: Job)
    requires Balanced(s, v, j) && Enabled(s, MainStep(ok, k)) && s.main.Helping?
    ensures Balanced(MainNext(s, ok, k), v, j)
  {
    var m, x := |s.workers|, s.main.j;
    TimesAppend(s.ran[m], x, j);
    SumUpdate(s.ran, InSeq(j), m, s.ran[m] + [x]);
  }

  lemma WorkerBalanced(s: State, v: View, w: nat, ok: bool, k: nat, j: Job)
    requires Balanced(s, v, j) && Enabled(s, WorkerStep(w, ok, k))
    ensures Balanced(WorkerNext(s, w, ok, k), v, j)
  {
    SumUpdate(s.workers, InHand(j), w, WorkerNext(s, w, ok, k).workers[w]);
    match s.workers[w] {
      case WaitForJob => if ok { TimesWithout(s.queue, k, j); }
      case Running(x) =>
        TimesAppend(s.ran[w], x, j);
        SumUpdate(s.ran, InSeq(j), w, s.ran[w] + [x]);
      case _ =>
    }
  }

  lemma WorkerCounted(s: State, v: View, w: nat, ok: bool, k: nat)
    requires Counted(s, v) && Enabled(s, WorkerStep(w, ok, k))
    ensures Counted(WorkerNext(s, w, ok, k), v)
  {
    SumUpdate(s.workers, Owed, w, WorkerNext(s, w, ok, k).workers[w]);
  }

  lemma StepCounted(s: State, v: View, op: Op)
    requires Counted(s, v) && Enabled(s, op)
    ensures Counted(Next(s, op), NextView(s, v, op)) && |Next(s, op).ran| == |Next(s, op).workers| + 1
  {
    if op.WorkerStep? { WorkerCounted(s, v, op.w, op.ok, op.k); }
  }

  lemma StepBalanced(s: State, v: View, op: Op, j: Job)
    requires Balanced(s, v, j) && Enabled(s, op)
    ensures Balanced(Next(s, op), NextView(s, v, op), j)
  {
    match op {
      case Submit(x) => TimesAppend(v.submitted, x, j);
      case MainStep(ok, k) => if s.main.Helping? { HelpBalanced(s, v, ok, k, j); } else { MainBalanced(s, v, ok, k, j); }
      case WorkerStep(w, ok, k) => WorkerBalanced(s, v, w, ok, k, j);
      case _ =>
    }
  }

  lemma StepKeepsInv(s: State, v: View, op: Op)
    requires Inv(s, v) && Enabled(s, op)
    ensures Inv(Next(s, op), NextView(s, v, op))
  {
    StepCounted(s, v, op);
    forall j ensures Balanced(Next(s, op), NextView(s, v, op), j) {
      assert Balanced(s, v, j);
      StepBalanced(s, v, op, j);
    }
  }

  // ---------------------------------------------------------------------------------------------
  // Runs
  // ---------------------------------------------------------------------------------------------

  ghost predicate Initial(s: State) {
    && s.pending == 0 && s.queue == [] && !s.quit && s.main.Idle? && |s.ran| == |s.workers| + 1
    && (forall w :: 0 <= w < |s.workers| ==> s.workers[w].TestQuit?) && forall t :: 0 <= t < |s.ran| ==> s.ran[t] == []
  }

  predicate Step(s: State, op: Op, s': State) { Enabled(s, op) && s' == Next(s, op) }

  ghost predicate Run(b: seq<State>, ops: seq<Op>) {
    && |b| == |ops| + 1 && Initial(b[0])
    && forall i {:trigger ops[i]} :: 0 <= i < |ops| ==> Step(b[i], ops[i], b[i + 1])
  }

  /** The jobs submitted in the first n steps, and those of them whose enqueue failed. */
  function Submitted(ops: seq<Op>, n: nat): seq<Job>
    requires n <= |ops|
  { if n == 0 then [] else Submitted(ops, n - 1) + if ops[n - 1].Submit? then [ops[n - 1].j] else [] }

  function Lost(b: seq<State>, ops: seq<Op>, n: nat): seq<Job>
    requires n <= |ops| <= |b|
  {
    if n == 0 then [] else
      Lost(b, ops, n - 1)
      + if ops[n - 1].MainStep? && !ops[n - 1].ok && b[n - 1].main.Enqueueing? then [b[n - 1].main.j] else []
  }

  function History(b: seq<State>, ops: seq<Op>, n: nat): View
    requires n <= |ops| <= |b|
  { View(Submitted(ops, n), Lost(b, ops, n)) }

  lemma InitialInv(s: State)
    requires Initial(s)
    ensures Inv(s, View([], []))
  {
    SumZero(s.workers, Owed);
    forall j ensures Balanced(s, View([], []), j) {
      SumZero(s.ran, InSeq(j));
      SumZero(s.workers, InHand(j));
    }
  }

  lemma {:induction false} RunKeepsInv(b: seq<State>, ops: seq<Op>, n: nat)
    requires Run(b, ops) && n < |b|
    ensures Inv(b[n], History(b, ops, n))
    decreases n
  {
    if n == 0 {
      InitialInv(b[0]);
    } else {
      RunKeepsInv(b, ops, n - 1);
      assert Step(b[n - 1], ops[n - 1], b[n]);
      StepKeepsInv(b[n - 1], History(b, ops, n - 1), ops[n - 1]);
      HistoryStep(b, ops, n);
    }
  }

  lemma HistoryStep(b: seq<State>, ops: seq<Op>, n: nat)
    requires 0 < n <= |ops| <= |b|
    ensures History(b, ops, n) == NextView(b[n - 1], History(b, ops, n - 1), ops[n - 1])
  {
  }

  /** pendingJobs counts the jobs counted but not yet enqueued, the queued ones, the dequeued ones not yet
      subtracted, and those that a failed enqueue has lost. */
  lemma PendingCounts(b: seq<State>, ops: seq<Op>, n: nat)
    requires Run(b, ops) && n < |b|
    ensures b[n].pending == MainOwed(b[n].main) + |b[n].queue| + Sum(b[n].workers, Owed) + |Lost(b, ops, n)|
  {
    RunKeepsInv(b, ops, n);
  }

  /** Step i calls waitForAllJobsFinished, and the call has returned in state j, not before. */
  predicate WaitCall(b: seq<State>, ops: seq<Op>, i: nat, j: nat) {
    i < j < |b| == |ops| + 1 && ops[i].WaitForAll? && (forall k :: i < k < j ==> !b[k].main.Idle?) && b[j].main.Idle?
  }

  /** Nothing is under way. */
  ghost predicate Finished(s: State) {
    && s.queue == [] && s.pending == 0 && MainOwed(s.main) == 0 && !s.main.Counting?
    && forall w :: 0 <= w < |s.workers| ==> !s.workers[w].Running? && !s.workers[w].Finishing?
  }

  lemma ZeroMeansFinished(s: State, v: View)
    requires Counted(s, v) && s.pending == 0 && !s.main.Counting?
    ensures Finished(s) && v.lost == []
  {
    SumNonNegative(s.workers, Owed);
    forall w | 0 <= w < |s.workers| ensures !s.workers[w].Running? && !s.workers[w].Finishing? { assert Owed(s.workers[w]) <= 0; }
  }

  lemma FinishedMeansAllRan(s: State, v: View)
    requires Inv(s, v) && Finished(s) && v.lost == []
    ensures AllRan(s.ran) == multiset(v.submitted)
  {
    forall j ensures AllRan(s.ran)[j] == multiset(v.submitted)[j] {
      assert Balanced(s, v, j);
      AllRanCounts(s.ran, j);
      SumZero(s.workers, InHand(j));
    }
  }

  predicate InWait(m: Main) { m.Checking? || m.Trying? || m.Helping? || m.Helped? }

  lemma WaitStays(b: seq<State>, ops: seq<Op>, i: nat, k: nat)
    requires Run(b, ops) && i < k < |b| && ops[i].WaitForAll? && forall l :: i < l <= k ==> !b[l].main.Idle?
    ensures InWait(b[k].main)
  {
    assert Step(b[i], ops[i], b[i + 1]);
    for l := i + 1 to k
      invariant InWait(b[l].main)
    {
      assert Step(b[l], ops[l], b[l + 1]);
    }
  }

  /** The call returns with the load of pendingJobs that gives 0, and this step changes nothing else. */
  lemma WaitReturns(b: seq<State>, ops: seq<Op>, i: nat, j: nat)
    requires Run(b, ops) && WaitCall(b, ops, i, j)
    ensures b[j - 1].main.Checking? && b[j - 1].pending == 0 && b[j] == b[j - 1].(main := Idle) && ops[j - 1].MainStep?
  {
    assert Step(b[i], ops[i], b[i + 1]);
    WaitStays(b, ops, i, j - 1);
    assert Step(b[j - 1], ops[j - 1], b[j]);
  }

  /** When waitForAllJobsFinished returns, nothing is under way, and every job submitted so far has run
      exactly once. */
  lemma WaitMeansAllRan(b: seq<State>, ops: seq<Op>, i: nat, j: nat)
    requires Run(b, ops) && WaitCall(b, ops, i, j)
    ensures AllRan(b[j].ran) == multiset(Submitted(ops, j)) && Finished(b[j]) && b[j].pending == 0 && Lost(b, ops, j) == []
  {
    WaitReturns(b, ops, i, j);
    RunKeepsInv(b, ops, j);
    ZeroMeansFinished(b[j], History(b, ops, j));
    FinishedMeansAllRan(b[j], History(b, ops, j));
  }

  /** It returns only if every enqueue so far has succeeded: the result of enqueue is ignored, so after a
      failure the count can never come down to zero again. */
  lemma WaitNeedsEveryEnqueue(b: seq<State>, ops: seq<Op>, n: nat)
    requires Run(b, ops) && n < |b| && Lost(b, ops, n) != []
    ensures b[n].pending > 0 && forall i :: !WaitCall(b, ops, i, n)
  {
    RunKeepsInv(b, ops, n);
    SumNonNegative(b[n].workers, Owed);
    forall i | WaitCall(b, ops, i, n) ensures false { WaitMeansAllRan(b, ops, i, n); }
  }

  /** The steps that the jobs under way still need: each is dequeued, run, and subtracted. */
  function Left(w: Worker): int { if w.Running? then 2 else if w.Finishing? then 1 else 0 }

  function MainLeft(m: Main): int {
    if m.Counting? then 5 else if m.Enqueueing? then 4 else if m.Helping? then 2 else if m.Helped? then 1 else 0
  }

  function StepsLeft(s: State): int { 3 * |s.queue| + Sum(s.workers, Left) + MainLeft(s.main) }

  /** A step that works on a job, and not a test of quit or pendingJobs or a vain attempt to dequeue. */
  predicate Works(s: State, op: Op) {
    match op
    case MainStep(ok, _) => MainLeft(s.main) > 0 || (s.main.Trying? && ok)
    case WorkerStep(w, ok, _) => w < |s.workers| && (Left(s.workers[w]) > 0 || (s.workers[w].WaitForJob? && ok))
    case _ => false
  }

  /** Until the next submission the steps left never grow, and each step that works on a job is one of them. */
  lemma JobsProgress(s: State, op: Op)
    requires Enabled(s, op) && !op.Submit?
    ensures StepsLeft(Next(s, op)) <= StepsLeft(s) && (Works(s, op) ==> StepsLeft(Next(s, op)) < StepsLeft(s))
  {
    if op.WorkerStep? { SumUpdate(s.workers, Left, op.w, WorkerNext(s, op.w, op.ok, op.k).workers[op.w]); }
  }

  /** The wait can return exactly when no step is left and no enqueue has failed. */
  lemma WaitCanReturn(b: seq<State>, ops: seq<Op>, n: nat)
    requires Run(b, ops) && n < |b| && b[n].main.Checking?
    ensures b[n].pending == 0 <==> StepsLeft(b[n]) == 0 && Lost(b, ops, n) == []
  {
    RunKeepsInv(b, ops, n);
    SumNonNegative(b[n].workers, Owed);
    SumNonNegative(b[n].workers, Left);
    if b[n].pending == 0 {
      forall w | 0 <= w < |b[n].workers| ensures Left(b[n].workers[w]) == 0 { assert Owed(b[n].workers[w]) <= 0; }
      SumZero(b[n].workers, Left);
    } else if StepsLeft(b[n]) == 0 {
      forall w | 0 <= w < |b[n].workers| ensures Owed(b[n].workers[w]) == 0 { assert Left(b[n].workers[w]) <= 0; }
      SumZero(b[n].workers, Owed);
    }
  }

  lemma RunExtends(b: seq<State>, ops: seq<Op>, op: Op) returns (b': seq<State>, ops': seq<Op>)
    requires Run(b, ops) && Enabled(b[|ops|], op)
    ensures b' == b + [Next(b[|ops|], op)] && ops' == ops + [op] && Run(b', ops')
  {
    b', ops' := b + [Next(b[|ops|], op)], ops + [op];
    forall i {:trigger ops'[i]} | 0 <= i < |ops'| ensures Step(b'[i], ops'[i], b'[i + 1]) {
      if i < |ops| { assert ops'[i] == ops[i] && b'[i] == b[i] && b'[i + 1] == b[i + 1]; }
    }
  }

  /** Inside waitForAllJobsFinished, and nothing lost. */
  ghost predicate Waiting(s: State) { |s.ran| == |s.workers| + 1 && Counted(s, View([], [])) && InWait(s.main) }

  /** A bound on the steps until the wait returns, if only threads with something to do are scheduled. */
  function WaitRank(s: State): int {
    2 * StepsLeft(s) + if s.main.Checking? then 1 else if s.main.Trying? && s.queue == [] then 2 else 0
  }

  /** The step of a worker that has a job in hand, when no job is queued; otherwise one of the main thread. */
  lemma WaitStep(s: State) returns (op: Op)
    requires Waiting(s)
    ensures Enabled(s, op) && WaitRank(s) > 0
    ensures Waiting(Next(s, op)) || Next(s, op).main.Idle?
    ensures WaitRank(Next(s, op)) < WaitRank(s)
  {
    SumNonNegative(s.workers, Left);
    if s.main.Checking? && s.pending != 0 && s.queue == [] {
      if forall w :: 0 <= w < |s.workers| ==> Owed(s.workers[w]) == 0 {
        SumZero(s.workers, Owed);
        assert false;
      }
      var w :| 0 <= w < |s.workers| && Owed(s.workers[w]) != 0;
      op := WorkerStep(w, false, 0);
    } else {
      op := MainStep(s.queue != [], 0);
    }
    JobsProgress(s, op);
    StepCounted(s, View([], []), op);
  }

  lemma RankIsNonNegative(s: State)
    ensures WaitRank(s) >= 0
  {
    SumNonNegative(s.workers, Left);
  }

  /** The last state of a run that is inside the call of waitForAllJobsFinished made by step i, or at its end. */
  ghost predicate WaitsSince(b: seq<State>, ops: seq<Op>, i: nat) {
    && Run(b, ops) && i < |ops| && ops[i].WaitForAll? && (forall k :: i < k < |ops| ==> !b[k].main.Idle?)
    && (Waiting(b[|ops|]) || b[|ops|].main.Idle?)
  }

  lemma WaitGoesOn(b: seq<State>, ops: seq<Op>, i: nat) returns (b': seq<State>, ops': seq<Op>)
    requires WaitsSince(b, ops, i) && !b[|ops|].main.Idle?
    ensures WaitsSince(b', ops', i) && b <= b' && ops <= ops' && |ops'| == |ops| + 1
    ensures 0 <= WaitRank(b'[|ops'|]) < WaitRank(b[|ops|])
  {
    var op := WaitStep(b[|ops|]);
    b', ops' := RunExtends(b, ops, op);
    RankIsNonNegative(b'[|ops'|]);
  }

  /** If every enqueue so far has succeeded, a call of waitForAllJobsFinished can return, wherever it is and
      whatever the workers are in the middle of: it does when the threads with a job in hand go on and the
      main thread takes the queued ones. */
  lemma WaitEnds(b: seq<State>, ops: seq<Op>, i: nat) returns (b': seq<State>, ops': seq<Op>)
    requires Run(b, ops) && i < |ops| && ops[i].WaitForAll? && (forall k :: i < k <= |ops| ==> !b[k].main.Idle?)
    requires Lost(b, ops, |ops|) == []
    ensures Run(b', ops') && b <= b' && ops <= ops' && WaitCall(b', ops', i, |ops'|)
    ensures |ops'| <= |ops| + WaitRank(b[|ops|])
  {
    RunKeepsInv(b, ops, |ops|);
    WaitStays(b, ops, i, |ops|);
    RankIsNonNegative(b[|ops|]);
    b', ops' := b, ops;
    var bound := |ops| + WaitRank(b[|ops|]);
    while !b'[|ops'|].main.Idle?
      invariant WaitsSince(b', ops', i) && b <= b' && ops <= ops'
      invariant 0 <= WaitRank(b'[|ops'|]) <= bound - |ops'|
      invariant |ops| < |ops'| || !b'[|ops'|].main.Idle?
      decreases WaitRank(b'[|ops'|])
    {
      b', ops' := WaitGoesOn(b', ops', i);
    }
  }

  lemma FinishedStays(s: State, op: Op)
    requires Finished(s) && Enabled(s, op) && !op.Submit?
    ensures Finished(Next(s, op)) && Next(s, op).ran == s.ran && !(op.MainStep? && s.main.Enqueueing?)
  {
  }

  /** From then on, until the next submission, nothing more runs and nothing is lost; in particular a
      shutdown, whenever the workers see it, drops no job. */
  lemma {:induction false} NothingDropped(b: seq<State>, ops: seq<Op>, i: nat, n: nat, m: nat)
    requires Run(b, ops) && n <= m < |b| && WaitCall(b, ops, i, n) && forall k :: n <= k < m ==> !ops[k].Submit?
    ensures b[m].ran == b[n].ran && Submitted(ops, m) == Submitted(ops, n) && Finished(b[m]) && Lost(b, ops, m) == []
    decreases m
  {
    if n == m {
      WaitMeansAllRan(b, ops, i, n);
    } else {
      NothingDropped(b, ops, i, n, m - 1);
      assert Step(b[m - 1], ops[m - 1], b[m]);
      FinishedStays(b[m - 1], ops[m - 1]);
    }
  }

  /** After a shutdown without waiting, exactly the jobs still queued are dropped. */
  lemma ShutdownDropsQueued(b: seq<State>, ops: seq<Op>, n: nat)
    requires Run(b, ops) && n < |b| && b[n].main.Idle? && forall w :: 0 <= w < |b[n].workers| ==> b[n].workers[w].Exited?
    ensures multiset(Submitted(ops, n)) == AllRan(b[n].ran) + multiset(b[n].queue) + multiset(Lost(b, ops, n))
  {
    var v := History(b, ops, n);
    RunKeepsInv(b, ops, n);
    forall j ensures multiset(v.submitted)[j] == AllRan(b[n].ran)[j] + multiset(b[n].queue)[j] + multiset(v.lost)[j] {
      assert Balanced(b[n], v, j);
      AllRanCounts(b[n].ran, j);
      SumZero(b[n].workers, InHand(j));
    }
  }

  /** A worker leaves its loop only after a shutdown has begun. */
  lemma {:induction false} ExitMeansShutdown(b: seq<State>, ops: seq<Op>, n: nat)
    requires Run(b, ops) && n < |b|
    ensures b[n].quit ==> exists i :: 0 <= i < n && ops[i].Shutdown?
    ensures forall w :: 0 <= w < |b[n].workers| && b[n].workers[w].Exited? ==> b[n].quit
    ensures b[n].main.Quitting? || b[n].main.Joining? ==> exists i :: 0 <= i < n && ops[i].Shutdown?
    decreases n
  {
    if n > 0 {
      ExitMeansShutdown(b, ops, n - 1);
      assert Step(b[n - 1], ops[n - 1], b[n]);
    }
  }

  /** Step i calls shutdownJobSystem, and the call has returned in state j, not before. */
  predicate ShutdownCall(b: seq<State>, ops: seq<Op>, i: nat, j: nat) {
    i < j < |b| == |ops| + 1 && ops[i].Shutdown? && (forall k :: i < k < j ==> !b[k].main.Idle?) && b[j].main.Idle?
  }

  predicate Joined(s: State, w: nat) { s.quit && w <= |s.workers| && forall u :: 0 <= u < w ==> s.workers[u].Exited? }

  lemma JoinedStays(s: State, op: Op, w: nat)
    requires Enabled(s, op) && Joined(s, w)
    ensures Joined(Next(s, op), w)
  {
  }

  /** When shutdownJobSystem returns, every worker has left its loop. */
  lemma ShutdownJoinsAll(b: seq<State>, ops: seq<Op>, i: nat, j: nat)
    requires Run(b, ops) && ShutdownCall(b, ops, i, j)
    ensures Joined(b[j], |b[j].workers|)
  {
    assert Step(b[i], ops[i], b[i + 1]);
    for k := i + 1 to j
      invariant if k < j then b[k].main.Quitting? || (b[k].main.Joining? && Joined(b[k], b[k].main.w)) else Joined(b[j], |b[j].workers|)
    {
      assert Step(b[k], ops[k], b[k + 1]);
      if b[k].main.Joining? { JoinedStays(b[k], ops[k], b[k].main.w); }
    }
  }

  /** After the flag is set, a worker leaves its loop after at most four more of its own steps. */
  function StepsToExit(w: Worker): nat {
    match w
    case Exited => 0
    case TestQuit => 1
    case Finishing => 2
    case Running(_) => 3
    case WaitForJob => 4
  }

  lemma WorkersExit(s: State, w: nat, ok: bool, k: nat)
    requires Enabled(s, WorkerStep(w, ok, k)) && s.quit
    ensures StepsToExit(Next(s, WorkerStep(w, ok, k)).workers[w]) < StepsToExit(s.workers[w])
  {
  }

  /** The last state of a run that is inside the call of shutdownJobSystem made by step i, about to join w. */
  ghost predicate JoinsNext(b: seq<State>, ops: seq<Op>, i: nat, w: nat) {
    && Run(b, ops) && i < |ops| && ops[i].Shutdown? && (forall k :: i < k < |b| ==> !b[k].main.Idle?)
    && (var s := b[|ops|]; s.main == Joining(w) && s.quit && w <= |s.workers| && |s.ran| == |s.workers| + 1)
  }

  /** A worker that goes on alone leaves its loop. */
  lemma WorkerLeaves(b: seq<State>, ops: seq<Op>, i: nat, w: nat) returns (b': seq<State>, ops': seq<Op>)
    requires JoinsNext(b, ops, i, w) && w < |b[|ops|].workers|
    ensures JoinsNext(b', ops', i, w) && b <= b' && ops <= ops' && |ops'| <= |ops| + 4
    ensures |b'[|ops'|].workers| == |b[|ops|].workers| && b'[|ops'|].workers[w].Exited?
  {
    b', ops' := b, ops;
    var n := |b[|ops|].workers|;
    while !b'[|ops'|].workers[w].Exited?
      invariant JoinsNext(b', ops', i, w) && b <= b' && ops <= ops' && |b'[|ops'|].workers| == n
      invariant |ops'| + StepsToExit(b'[|ops'|].workers[w]) <= |ops| + 4
      decreases StepsToExit(b'[|ops'|].workers[w])
    {
      WorkersExit(b'[|ops'|], w, false, 0);
      b', ops' := RunExtends(b', ops', WorkerStep(w, false, 0));
    }
  }

  /** From any state, a call of shutdownJobSystem returns after at most five steps for each worker and three more,
      if the workers and the main thread are scheduled in turn. */
  lemma ShutdownEnds(b: seq<State>, ops: seq<Op>) returns (b': seq<State>, ops': seq<Op>)
    requires Run(b, ops) && Enabled(b[|ops|], Shutdown)
    ensures Run(b', ops') && b <= b' && ops + [Shutdown] <= ops' && ShutdownCall(b', ops', |ops|, |ops'|)
    ensures |ops'| <= |ops| + 5 * |b[|ops|].workers| + 3
  {
    var i, n := |ops|, |b[|ops|].workers|;
    b', ops' := RunExtends(b, ops, Shutdown);
    b', ops' := RunExtends(b', ops', MainStep(true, 0));
    for w := 0 to n
      invariant JoinsNext(b', ops', i, w) && b <= b' && ops + [Shutdown] <= ops' && |b'[|ops'|].workers| == n
      invariant |ops'| <= |ops| + 5 * w + 2
    {
      b', ops' := WorkerLeaves(b', ops', i, w);
      b', ops' := RunExtends(b', ops', MainStep(true, 0));
    }
    b', ops' := RunExtends(b', ops', MainStep(true, 0));
  }

  // ---------------------------------------------------------------------------------------------
  // One thread alone
  // ---------------------------------------------------------------------------------------------

  /** The main thread alone performs up to k steps: enqueues succeed, and try_dequeue gives the oldest job. */
  function MainAlone(s: State, k: nat): State
    decreases k
  {
    var op := MainStep(!s.main.Trying? || s.queue != [], 0);
    if k == 0 || !Enabled(s, op) then s else MainAlone(Next(s, op), k - 1)
  }

  /** addJob counts the job and appends it to the queue. */
  lemma AddJobAlone(s: State, j: Job)
    requires Enabled(s, Submit(j))
    ensures MainAlone(Next(s, Submit(j)), 2) == s.(pending := s.pending + 1, queue := s.queue + [j])
  {
    var s1 := Next(s, Submit(j));
    var s2 := s.(pending := s.pending + 1, main := Enqueueing(j));
    assert MainAlone(s1, 2) == MainAlone(s2, 1) == MainAlone(Next(s2, MainStep(true, 0)), 0);
  }

  lemma HelpAlone(s: State, k: nat)
    requires s.main.Checking? && s.pending > 0 && s.queue != [] && |s.ran| == |s.workers| + 1
    ensures var m := |s.workers|;
      MainAlone(s, k + 4) ==
      MainAlone(s.(pending := s.pending - 1, queue := s.queue[1..], ran := s.ran[m := s.ran[m] + [s.queue[0]]]), k)
  {
    var m, j := |s.workers|, s.queue[0];
    var s1 := s.(main := Trying);
    var s2 := s.(queue := s.queue[1..], main := Helping(j));
    var s3 := s2.(ran := s.ran[m := s.ran[m] + [j]], main := Helped);
    assert Without(s.queue, 0) == s.queue[1..];
    assert MainAlone(s, k + 4) == MainAlone(s1, k + 3);
    assert MainAlone(s1, k + 3) == MainAlone(s2, k + 2);
    assert MainAlone(s2, k + 2) == MainAlone(s3, k + 1);
  }

  lemma {:induction false} LoopAlone(s: State)
    requires s.main.Checking? && s.pending == |s.queue| && |s.ran| == |s.workers| + 1
    ensures var m := |s.workers|;
      MainAlone(s, 4 * |s.queue| + 1) == s.(pending := 0, queue := [], main := Idle, ran := s.ran[m := s.ran[m] + s.queue])
    decreases |s.queue|
  {
    var m := |s.workers|;
    if s.queue == [] {
      assert s.ran[m] + s.queue == s.ran[m];
      assert MainAlone(s, 1) == MainAlone(s.(main := Idle), 0);
    } else {
      var s' := s.(pending := s.pending - 1, queue := s.queue[1..], ran := s.ran[m := s.ran[m] + [s.queue[0]]]);
      HelpAlone(s, 4 * |s'.queue| + 1);
      LoopAlone(s');
      assert s.ran[m] + s.queue == (s.ran[m] + [s.queue[0]]) + s.queue[1..];
    }
  }

  /** When the workers have no job in hand, waitForAllJobsFinished runs all queued jobs itself, in order,
      and returns. */
  lemma WaitAlone(s: State)
    requires Enabled(s, WaitForAll) && s.pending == |s.queue|
    ensures var m := |s.workers|;
      MainAlone(Next(s, WaitForAll), 4 * |s.queue| + 1) == s.(pending := 0, queue := [], ran := s.ran[m := s.ran[m] + s.queue])
  {
    LoopAlone(Next(s, WaitForAll));
  }

  /** Worker w alone performs up to k steps, and its dequeue gives the oldest job. */
  function WorkerAlone(s: State, w: nat, k: nat): State
    decreases k
  {
    var op := WorkerStep(w, s.queue != [], 0);
    if k == 0 || !Enabled(s, op) then s else WorkerAlone(Next(s, op), w, k - 1)
  }

  lemma FinishesJob(s: State, w: nat)
    requires Enabled(s, WorkerStep(w, true, 0)) && s.workers[w].Running?
    ensures WorkerAlone(s, w, 2) == s.(pending := s.pending - 1, ran := s.ran[w := s.ran[w] + [s.workers[w].j]], workers := s.workers[w := TestQuit])
  {
    var s' := s.(ran := s.ran[w := s.ran[w] + [s.workers[w].j]], workers := s.workers[w := Finishing]);
    assert WorkerAlone(s, w, 2) == WorkerAlone(s', w, 1) == WorkerAlone(Next(s', WorkerStep(w, s.queue != [], 0)), w, 0);
  }

  /** Four steps of a worker take the oldest job, run it, and subtract it from the count. */
  lemma RunsOneJob(s: State, w: nat)
    requires Enabled(s, WorkerStep(w, true, 0)) && s.workers[w].TestQuit? && !s.quit && s.queue != []
    ensures WorkerAlone(s, w, 4) == s.(pending := s.pending - 1, queue := s.queue[1..], ran := s.ran[w := s.ran[w] + [s.queue[0]]])
  {
    var s1 := s.(workers := s.workers[w := WaitForJob]);
    var s2 := s.(queue := s.queue[1..], workers := s.workers[w := Running(s.queue[0])]);
    assert Without(s.queue, 0) == s.queue[1..];
    assert WorkerAlone(s, w, 4) == WorkerAlone(s1, w, 3) == WorkerAlone(s2, w, 2);
    FinishesJob(s2, w);
    assert s2.workers[w := TestQuit] == s.workers;
  }

  // ---------------------------------------------------------------------------------------------
  // The job system in place
  // ---------------------------------------------------------------------------------------------

  class WorkerSystem {
    var pendingJobs: int
    var workerJobQueue: seq<Job>
    var quit: bool
    var main: Main
    var workers: seq<Worker>
    var ran: seq<seq<Job>>

    ghost function Snapshot(): State
      reads this
    { State(pendingJobs, workerJobQueue, quit, main, workers, ran) }

    /** initJobSystem */
    constructor (threads: nat)
      ensures Initial(Snapshot()) && |workers| == threads
    {
      pendingJobs, workerJobQueue, quit, main := 0, [], false, Idle;
      workers := seq(threads, _ => TestQuit);
      ran := seq(threads + 1, _ => []);
    }

    method TakeJob(k: nat) returns (j: Job)
      requires k < |workerJobQueue|
      modifies this`workerJobQueue
      ensures j == old(workerJobQueue)[k] && workerJobQueue == Without(old(workerJobQueue), k)
    {
      j := workerJobQueue[k];
      workerJobQueue := workerJobQueue[..k] + workerJobQueue[k + 1..];
    }

    /** One step of workerThreadFunc in thread w. */
    method WorkerThread(w: nat, ok: bool, k: nat)
      requires Enabled(Snapshot(), WorkerStep(w, ok, k))
      modifies this
      ensures Step(old(Snapshot()), WorkerStep(w, ok, k), Snapshot())
    {
      match workers[w] {
        case TestQuit => workers := workers[w := if quit then Exited else WaitForJob];
        case WaitForJob =>
          if ok {
            var j := TakeJob(k);
            workers := workers[w := Running(j)];
          } else {
            workers := workers[w := TestQuit];
          }
        case Running(j) =>
          ran := ran[w := ran[w] + [j]];
          workers := workers[w := Finishing];
        case Finishing =>
          pendingJobs := pendingJobs - 1;
          workers := workers[w := TestQuit];
      }
    }

    /** One step of addJob, waitForAllJobsFinished or shutdownJobSystem. */
    method MainThread(op: Op)
      requires Enabled(Snapshot(), op) && !op.WorkerStep?
      modifies this
      ensures Step(old(Snapshot()), op, Snapshot())
    {
      match op {
        case Submit(j) => main := Counting(j);
        case WaitForAll => main := Checking;
        case Shutdown => main := Quitting;
        case MainStep(ok, k) =>
          match main {
            case Counting(j) =>
              pendingJobs := pendingJobs + 1;
              main := Enqueueing(j);
            case Enqueueing(j) =>
              if ok { workerJobQueue := workerJobQueue + [j]; }
              main := Idle;
            case Checking => main := if pendingJobs != 0 then Trying else Idle;
            case Trying =>
              if ok {
                var j := TakeJob(k);
                main := Helping(j);
              } else {
                main := Checking;
              }
            case Helping(j) =>
              ran := ran[|workers| := ran[|workers|] + [j]];
              main := Helped;
            case Helped =>
              pendingJobs := pendingJobs - 1;
              main := Checking;
            case Quitting =>
              quit := true;
              main := Joining(0);
            case Joining(w) => main := if w < |workers| then Joining(w + 1) else Idle;
          }
      }
    }
  }
}
