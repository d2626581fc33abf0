/** What the sub-queue guarantees in every run: first in first out delivery of exactly the accepted
    elements, bulk enqueue all or nothing, and no block lost, shared or touched by a stranger. */
module SubQueueRuns {
  import opened BlockIndex
  import opened SubQueue
  import opened SubQueueProof
  import opened Modular
  import opened Sums

  /** A new sub-queue: its first index, no blocks of its own. */
  ghost predicate Initial(s: State, cap: nat, junk: Ptr) {
    && cap > 0 && s.ix == Fresh(cap, junk) && s.tail == s.head == 0 && s.tailBlock == Null && s.prod == Ready(true)
    && AllCells(s.blocks)
    && (forall b :: b in s.free || b in s.others <==> 0 <= b < |s.blocks|) && s.free !! s.others
    && forall t :: 0 <= t < |s.cons| ==> s.cons[t] == SubQueue.Idle(Range(0, 0, 0, []))
  }

  predicate Step(s: State, op: Op, s': State) { WellFormed(s.ix) && Enabled(s, op) && s' == Next(s, op) }

  ghost predicate Run(b: seq<State>, ops: seq<Op>) {
    && |b| == |ops| + 1 && (exists cap, junk :: Initial(b[0], cap, junk))
    && forall i {:trigger ops[i]} :: 0 <= i < |ops| ==> Step(b[i], ops[i], b[i + 1])
  }

  lemma InitialInv(s: State, cap: nat, junk: Ptr) returns (v: History)
    requires Initial(s, cap, junk)
    ensures SubQueueProof.Inv(s, v) && v.log == []
  {
    var place := seq(|s.blocks|, b requires 0 <= b => if b in s.free then Free else Others);
    v := History(BlockIndex.View([0], 0, 0, 0, map[], {}), [], [], map[], place, [], 0);
    FreshInv(cap, junk);
    forall b | 0 <= b < |s.blocks| ensures PlaceOk(s.free, s.others, s.prod, s.cons, v, b) {}
    forall t | 0 <= t < |s.cons| ensures ConsOk(s.ix, s.blocks, v, t, s.cons[t]) {}
  }

  /** The elements of the call that this step publishes. */
  function Published(s: State, op: Op): seq<Elem> {
    if op.Produce? && s.prod.Publish? then s.prod.c.items else []
  }

  /** The elements of all successful enqueues among the first n steps, in order. */
  function Accepted(b: seq<State>, ops: seq<Op>, n: nat): seq<Elem>
    requires n <= |ops| <= |b|
  {
    if n == 0 then [] else Accepted(b, ops, n - 1) + Published(b[n - 1], ops[n - 1])
  }

  lemma TailStep(s: State, op: Op)
    requires WellFormed(s.ix) && Enabled(s, op)
    ensures Next(s, op).tail == s.tail + |Published(s, op)|
  {
  }

  lemma LogStep(s: State, v: History, op: Op, v': History)
    requires SubQueueProof.Inv(s, v) && Enabled(s, op) && |v'.log| >= s.tail + |Published(s, op)| && v.log <= v'.log
    ensures v'.log[..s.tail + |Published(s, op)|] == v.log[..s.tail] + Published(s, op)
  {
    if op.Produce? && s.prod.Publish? { assert v.log == v.log[..s.tail] + v.log[s.tail..]; }
  }

  lemma RunStep(b: seq<State>, ops: seq<Op>, n: nat, v: History) returns (v': History)
    requires Run(b, ops) && 0 < n < |b| && SubQueueProof.Inv(b[n - 1], v) && v.log[..b[n - 1].tail] == Accepted(b, ops, n - 1)
    ensures SubQueueProof.Inv(b[n], v') && v'.log[..b[n].tail] == Accepted(b, ops, n)
  {
    assert Step(b[n - 1], ops[n - 1], b[n]);
    v' := StepKeepsInv(b[n - 1], v, ops[n - 1]);
    TailStep(b[n - 1], ops[n - 1]);
    LogStep(b[n - 1], v, ops[n - 1], v');
  }

  lemma RunKeepsInv(b: seq<State>, ops: seq<Op>, n: nat) returns (v: History)
    requires Run(b, ops) && n < |b|
    ensures SubQueueProof.Inv(b[n], v) && v.log[..b[n].tail] == Accepted(b, ops, n)
  {
    var cap, junk :| Initial(b[0], cap, junk);
    v := InitialInv(b[0], cap, junk);
    for k := 0 to n
      invariant SubQueueProof.Inv(b[k], v) && v.log[..b[k].tail] == Accepted(b, ops, k)
    {
      v := RunStep(b, ops, k + 1, v);
    }
  }

  /** No assertion of the source ever fails: in particular every index lookup by a consumer, with
      whatever header and tail it has read, finds the block of its element. */
  lemma NothingFails(b: seq<State>, ops: seq<Op>, n: nat)
    requires Run(b, ops) && n < |b|
    ensures !b[n].prod.ProdFault? && forall t :: 0 <= t < |b[n].cons| ==> !b[n].cons[t].ConsFault?
  {
    var v := RunKeepsInv(b, ops, n);
    forall t | 0 <= t < |b[n].cons| ensures !b[n].cons[t].ConsFault? {
      assert ConsOk(b[n].ix, b[n].blocks, v, t, b[n].cons[t]);
    }
  }

  /** A claim of indices first..hi delivers exactly the accepted elements first..hi, in order. */
  lemma Delivered(b: seq<State>, ops: seq<Op>, n: nat, t: Tid)
    requires Run(b, ops) && n < |b| && t < |b[n].cons| && b[n].cons[t].Idle?
    ensures var r := b[n].cons[t].r;
      && r.first <= r.hi <= b[n].head <= b[n].tail == |Accepted(b, ops, n)|
      && r.got == Accepted(b, ops, n)[r.first..r.hi]
  {
    var v := RunKeepsInv(b, ops, n);
    assert ConsOk(b[n].ix, b[n].blocks, v, t, b[n].cons[t]);
    var r := b[n].cons[t].r;
    Prefix(v.log, r.first, r.hi, b[n].tail);
  }

  // ---------------------------------------------------------------------------------------------
  // Bulk enqueue is all or nothing
  // ---------------------------------------------------------------------------------------------

  /** Calls i..j: started by step i, still running in between, finished in state j. */
  predicate WholeCall(b: seq<State>, ops: seq<Op>, i: nat, j: nat, items: seq<Elem>) {
    && |b| == |ops| + 1 && i < j < |b| && ops[i] == StartEnqueue(items)
    && (forall k :: i < k < j ==> !b[k].prod.Ready?) && b[j].prod.Ready?
  }

  /** One step of a running call. */
  predicate CallRuns(s: State, op: Op, s': State, items: seq<Elem>, start: Ptr) {
    if s'.prod.Ready? then
      s'.prod.ok == s.prod.Publish? && Published(s, op) == (if s'.prod.ok then items else []) && (!s'.prod.ok ==> s'.tailBlock == start)
    else !s'.prod.ProdFault? ==> s'.prod.c.items == items && s'.prod.c.start == start && Published(s, op) == []
  }

  lemma CallStep(s: State, op: Op)
    requires WellFormed(s.ix) && Enabled(s, op) && !s.prod.Ready? && !s.prod.ProdFault?
    ensures CallRuns(s, op, Next(s, op), s.prod.c.items, s.prod.c.start)
  {
  }

  lemma CallStart(s: State, op: Op)
    requires WellFormed(s.ix) && Enabled(s, op) && op.StartEnqueue?
    ensures var s' := Next(s, op); !s'.prod.Ready? && !s'.prod.ProdFault? && s'.prod.c.items == op.items && s'.prod.c.start == s.tailBlock
    ensures Published(s, op) == []
  {
  }

  /** How far the running call has moved the tail of the block index. */
  function Ahead(s: State): int {
    match s.prod
    case Ready(_) => 0
    case ProdFault => 0
    case FreeChain(_, _) => 0
    case Write(c, _, _, _) => Blocks(s.tail + |c.items|) - Blocks(s.tail)
    case Publish(c) => Blocks(s.tail + |c.items|) - Blocks(s.tail)
    case UndoValue(c, _, q) => Blocks(s.tail + |c.items|) - c.left - q
    case UndoTail(c, _, q) => Blocks(s.tail + |c.items|) - c.left - q
    case _ =>
      Blocks(s.tail + |s.prod.c.items|) - Blocks(s.tail) - s.prod.c.left
      + if s.prod.GetBlock? || s.prod.StoreValue? || s.prod.DropTail? then 1 else 0
  }

  /** From ix to ix' either a new header has been published, or the tail has moved by a slots. */
  predicate IndexMoved(ix: Index, ix': Index, a: int)
    requires WellFormed(ix)
  {
    && |ix'.headers| >= |ix.headers|
    && (|ix'.headers| == |ix.headers| ==> Cur(ix') == Cur(ix).(tail := (Cur(ix).tail + a) % Cur(ix).cap))
  }

  /** What a step of the producer does to the tail of the index. */
  function Moves(prod: Prod): int {
    if prod.StoreTail? then 1 else if prod.DropTail? || prod.UndoTail? then -1 else 0
  }

  lemma AheadBuilding(s: State, op: Op, s': State)
    requires WellFormed(s.ix) && Enabled(s, op) && s' == Next(s, op) && op.Produce? && !s'.prod.ProdFault? && Builds(s.prod)
    ensures Ahead(s') == Ahead(s) + Moves(s.prod)
  {
  }

  lemma AheadStep(s: State, op: Op, s': State)
    requires WellFormed(s.ix) && Enabled(s, op) && s' == Next(s, op) && op.Produce? && !s'.prod.Ready? && !s'.prod.ProdFault?
    requires s.prod.UndoValue? && s.prod.cur.Null? ==> Ahead(s) == 0
    ensures Ahead(s') == Ahead(s) + Moves(s.prod)
  {
    if Builds(s.prod) { AheadBuilding(s, op, s'); }
  }

  lemma HeadersStay(s: State, op: Op, s': State)
    requires WellFormed(s.ix) && Enabled(s, op) && s' == Next(s, op) && (op.Produce? ==> Moves(s.prod) == 0 && !s.prod.NeedIndex?)
    ensures s'.ix.headers == s.ix.headers
  {
  }

  lemma ProducerMovesIndex(s: State, op: Op, s': State)
    requires WellFormed(s.ix) && Enabled(s, op) && s' == Next(s, op) && op.Produce? && !s'.prod.ProdFault?
    ensures IndexMoved(s.ix, s'.ix, Moves(s.prod))
  {
    if Moves(s.prod) == 0 && !s.prod.NeedIndex? {
      HeadersStay(s, op, s');
      DivModUnique(Cur(s.ix).tail, Cur(s.ix).cap, 0, Cur(s.ix).tail);
    }
  }

  lemma OthersKeepProducer(s: State, op: Op, s': State)
    requires WellFormed(s.ix) && Enabled(s, op) && s' == Next(s, op) && !op.Produce? && !s.prod.Ready?
    ensures Ahead(s') == Ahead(s)
  {
    assert s'.prod == s.prod && s'.tail == s.tail;
  }

  lemma StepMovesIndex(s: State, op: Op, s': State)
    requires Step(s, op, s') && !s.prod.Ready? && !s'.prod.Ready? && !s'.prod.ProdFault?
    requires s.prod.UndoValue? && s.prod.cur.Null? ==> Ahead(s) == 0
    ensures IndexMoved(s.ix, s'.ix, Ahead(s') - Ahead(s))
  {
    if op.Produce? {
      AheadStep(s, op, s');
      ProducerMovesIndex(s, op, s');
    } else {
      OthersKeepProducer(s, op, s');
      HeadersStay(s, op, s');
      DivModUnique(Cur(s.ix).tail, Cur(s.ix).cap, 0, Cur(s.ix).tail);
    }
  }

  lemma LastStep(s: State, op: Op, s': State)
    requires Step(s, op, s') && !s.prod.Ready? && s'.prod.Ready?
    ensures s'.ix == s.ix && Ahead(s) == Blocks(s'.tail) - Blocks(s.tail)
  {
    assert s.prod.Publish? || s.prod.FreeChain?;
  }

  lemma MovesAdd(ix: Index, ix': Index, ix'': Index, a: int, d: int)
    requires WellFormed(ix) && WellFormed(ix') && IndexMoved(ix, ix', a) && IndexMoved(ix', ix'', d)
    ensures IndexMoved(ix, ix'', a + d)
  {
    if |ix''.headers| == |ix.headers| {
      var x, cap := Cur(ix).tail + a, Cur(ix).cap;
      CongMod(x, cap);
      CongAdd(x % cap, x, d, cap);
      CongSameMod(x % cap + d, x + d, cap);
    }
  }

  /** Nothing has come so far of the call that began in state s0. */
  predicate InCall(s0: State, s: State, items: seq<Elem>) {
    s.tail == s0.tail && !s.prod.Ready? && !s.prod.ProdFault? && s.prod.c.items == items && s.prod.c.start == s0.tailBlock
  }

  lemma OneStep(b: seq<State>, ops: seq<Op>, k: nat)
    requires Run(b, ops) && k < |ops|
    ensures WellFormed(b[k].ix) && Enabled(b[k], ops[k]) && b[k + 1] == Next(b[k], ops[k]) && !b[k + 1].prod.ProdFault?
    ensures b[k + 1].tail == b[k].tail + |Published(b[k], ops[k])|
  {
    assert Step(b[k], ops[k], b[k + 1]);
    TailStep(b[k], ops[k]);
    NothingFails(b, ops, k + 1);
  }

  lemma CallBegins(b: seq<State>, ops: seq<Op>, i: nat, items: seq<Elem>)
    requires Run(b, ops) && i < |ops| && ops[i] == StartEnqueue(items)
    ensures InCall(b[i], b[i + 1], items)
  {
    OneStep(b, ops, i);
    CallStart(b[i], ops[i]);
  }

  lemma CallGoesOn(b: seq<State>, ops: seq<Op>, s0: State, k: nat, items: seq<Elem>)
    requires Run(b, ops) && k < |ops| && InCall(s0, b[k], items) && !b[k + 1].prod.Ready?
    ensures InCall(s0, b[k + 1], items)
  {
    OneStep(b, ops, k);
    CallStep(b[k], ops[k]);
  }

  lemma CallEnds(b: seq<State>, ops: seq<Op>, s0: State, k: nat, items: seq<Elem>)
    requires Run(b, ops) && k < |ops| && InCall(s0, b[k], items) && b[k + 1].prod.Ready?
    ensures Accepted(b, ops, k + 1) == Accepted(b, ops, k) + if b[k + 1].prod.ok then items else []
    ensures b[k + 1].tail == s0.tail + if b[k + 1].prod.ok then |items| else 0
    ensures !b[k + 1].prod.ok ==> b[k + 1].tailBlock == s0.tailBlock
  {
    OneStep(b, ops, k);
    CallStep(b[k], ops[k]);
  }

  lemma CallUntil(b: seq<State>, ops: seq<Op>, i: nat, j: nat, items: seq<Elem>)
    requires Run(b, ops) && i < j < |b| && ops[i] == StartEnqueue(items) && forall k :: i < k <= j ==> !b[k].prod.Ready?
    ensures InCall(b[i], b[j], items)
  {
    CallBegins(b, ops, i, items);
    for k := i + 1 to j
      invariant InCall(b[i], b[k], items)
    {
      CallGoesOn(b, ops, b[i], k, items);
    }
  }

  /** Step k publishes nothing. */
  predicate Silent(b: seq<State>, ops: seq<Op>, k: nat)
    requires k < |ops| <= |b|
  { Accepted(b, ops, k + 1) == Accepted(b, ops, k) }

  lemma CallIsSilent(b: seq<State>, ops: seq<Op>, k: nat)
    requires Run(b, ops) && k < |ops| && !b[k + 1].prod.Ready?
    ensures Silent(b, ops, k)
  {
    assert Step(b[k], ops[k], b[k + 1]);
    assert Published(b[k], ops[k]) == [];
  }

  lemma {:induction false} SilentUntil(b: seq<State>, ops: seq<Op>, i: nat, j: nat)
    requires i <= j <= |ops| <= |b| && forall k {:trigger Silent(b, ops, k)} :: i <= k < j ==> Silent(b, ops, k)
    ensures Accepted(b, ops, j) == Accepted(b, ops, i)
    decreases j
  {
    if i < j {
      SilentUntil(b, ops, i, j - 1);
      assert Silent(b, ops, j - 1);
    }
  }

  lemma NothingAccepted(b: seq<State>, ops: seq<Op>, i: nat, j: nat)
    requires Run(b, ops) && i <= j < |b| && forall k :: i < k <= j ==> !b[k].prod.Ready?
    ensures Accepted(b, ops, j) == Accepted(b, ops, i)
  {
    forall k {:trigger Silent(b, ops, k)} | i <= k < j ensures Silent(b, ops, k) { CallIsSilent(b, ops, k); }
    SilentUntil(b, ops, i, j);
  }

  /** When a failed call has taken all its blocks out of the index again, the tail is back. */
  lemma UndoneIsLevel(b: seq<State>, ops: seq<Op>, k: nat)
    requires Run(b, ops) && k < |b|
    ensures WellFormed(b[k].ix) && !b[k].prod.ProdFault?
    ensures b[k].prod.UndoValue? && b[k].prod.cur.Null? ==> Ahead(b[k]) == 0
  {
    var v := RunKeepsInv(b, ops, k);
  }

  lemma IndexStep(b: seq<State>, ops: seq<Op>, k: nat)
    requires Run(b, ops) && k < |ops| && !b[k].prod.Ready? && !b[k + 1].prod.Ready?
    ensures WellFormed(b[k].ix) && IndexMoved(b[k].ix, b[k + 1].ix, Ahead(b[k + 1]) - Ahead(b[k]))
  {
    UndoneIsLevel(b, ops, k);
    UndoneIsLevel(b, ops, k + 1);
    var s, s' := b[k], b[k + 1];
    assert Step(s, ops[k], s');
    StepMovesIndex(s, ops[k], s');
  }

  lemma IndexUntil(b: seq<State>, ops: seq<Op>, i: nat, j: nat)
    requires Run(b, ops) && i < j < |b| && (forall k :: i < k <= j ==> WellFormed(b[k].ix) && !b[k].prod.Ready?)
    requires WellFormed(b[i].ix) && IndexMoved(b[i].ix, b[i + 1].ix, Ahead(b[i + 1]))
    ensures IndexMoved(b[i].ix, b[j].ix, Ahead(b[j]))
  {
    for k := i + 1 to j
      invariant IndexMoved(b[i].ix, b[k].ix, Ahead(b[k]))
    {
      IndexStep(b, ops, k);
      MovesAdd(b[i].ix, b[k].ix, b[k + 1].ix, Ahead(b[k]), Ahead(b[k + 1]) - Ahead(b[k]));
    }
  }

  lemma StartMovesIndex(s: State, op: Op, s': State)
    requires Step(s, op, s') && op.StartEnqueue?
    ensures IndexMoved(s.ix, s'.ix, Ahead(s'))
  {
    DivModUnique(Cur(s.ix).tail, Cur(s.ix).cap, 0, Cur(s.ix).tail);
  }

  lemma IndexOfCall(b: seq<State>, ops: seq<Op>, i: nat, j: nat)
    requires Run(b, ops) && i + 1 < j < |b| && ops[i].StartEnqueue? && b[j - 1].tail == b[i].tail
    requires (forall k :: i < k < j ==> !b[k].prod.Ready?) && b[j].prod.Ready?
    ensures WellFormed(b[i].ix) && IndexMoved(b[i].ix, b[j].ix, Blocks(b[j].tail) - Blocks(b[i].tail))
  {
    UndoneIsLevel(b, ops, i);
    StartMovesIndex(b[i], ops[i], b[i + 1]);
    forall k | i < k < j ensures WellFormed(b[k].ix) { UndoneIsLevel(b, ops, k); }
    IndexUntil(b, ops, i, j - 1);
    LastStep(b[j - 1], ops[j - 1], b[j]);
  }

  lemma CallOutcome(b: seq<State>, ops: seq<Op>, i: nat, j: nat, items: seq<Elem>)
    requires Run(b, ops) && WholeCall(b, ops, i, j, items)
    ensures Accepted(b, ops, j) == Accepted(b, ops, i) + if b[j].prod.ok then items else []
    ensures b[j].tail == b[i].tail + if b[j].prod.ok then |items| else 0
    ensures !b[j].prod.ok ==> b[j].tailBlock == b[i].tailBlock
    ensures WellFormed(b[i].ix) && IndexMoved(b[i].ix, b[j].ix, Blocks(b[j].tail) - Blocks(b[i].tail))
  {
    CallUntil(b, ops, i, j - 1, items);
    NothingAccepted(b, ops, i, j - 1);
    CallEnds(b, ops, b[i], j - 1, items);
    IndexOfCall(b, ops, i, j);
  }

  /** A successful call appends exactly its items, in order; a failed one leaves the accepted elements,
      the tail and the tail block as they were, and all blocks it had requisitioned are back, out of the
      index.  The tail of the block index, if no header has been published meanwhile, has moved by the
      number of new blocks, that is nowhere after a failure; in any case it is the entry of the last
      block, if an element is left. */
  lemma AllOrNothing(b: seq<State>, ops: seq<Op>, i: nat, j: nat, items: seq<Elem>)
    requires Run(b, ops) && WholeCall(b, ops, i, j, items)
    ensures Accepted(b, ops, j) == Accepted(b, ops, i) + if b[j].prod.ok then items else []
    ensures b[j].tail == b[i].tail + if b[j].prod.ok then |items| else 0
    ensures !b[j].prod.ok ==> b[j].tailBlock == b[i].tailBlock
    ensures WellFormed(b[i].ix) && IndexMoved(b[i].ix, b[j].ix, Blocks(b[j].tail) - Blocks(b[i].tail))
    ensures NothingPending(b[j]) && TailEntry(b[j])
  {
    CallOutcome(b, ops, i, j, items);
    NothingIsLeft(b, ops, j);
  }

  // ---------------------------------------------------------------------------------------------
  // Ownership of blocks
  // ---------------------------------------------------------------------------------------------

  /** The blocks whose elements or counts an operation of this sub-queue accesses. */
  predicate ProducerWrites(s: State, b: Block) {
    || (s.prod.Write? && s.prod.i < s.prod.stop && s.tailBlock == At(b))
    || (s.prod.StoreValue? && (s.prod.b == b || (s.tailBlock == At(b) && (CellOf(s.tail) != 0 || s.prod.c.first.At?))))
    || (s.prod.FreeChain? && s.prod.cur == At(b))
    || (s.prod.UndoTail? && s.prod.cur == At(b))
  }

  predicate ConsumerUses(c: Cons, b: Block) {
    && ((c.Copy? && c.r.i < Stop(c.from, c.r.hi)) || c.SetEmpty? || c.Unindex? || c.FreeBlock?)
    && c.b == b
  }

  lemma WriterOwns(s: State, v: History, b: Block)
    requires Body(s, v) && ProducerWrites(s, b)
    ensures b < |s.blocks| && b !in s.free && b !in s.others
  {
    match s.prod {
      case Write(_, _, _, _) => assert MappedOk(s.ix, s.blocks, s.cons, s.head, v, v.w);
      case StoreValue(c, _, _) =>
        if s.prod.b != b {
          if c.first.At? {
            assert BuiltAt(v.blk, v.pend, s.tail, |v.pend| - 1);
            assert MappedOk(s.ix, s.blocks, s.cons, s.head, v, Blocks(s.tail) + |v.pend| - 1);
          } else {
            assert MappedOk(s.ix, s.blocks, s.cons, s.head, v, Blocks(s.tail) - 1);
          }
        }
      case FreeChain(_, _) => assert UndoneAt(v.place, v.pend, v.w);
      case UndoTail(_, _, q) => assert UndoneAt(v.place, v.pend, q - Blocks(s.tail));
    }
    assert PlaceOk(s.free, s.others, s.prod, s.cons, v, b);
  }

  lemma UserOwns(s: State, v: History, t: Tid, b: Block)
    requires Body(s, v) && t < |s.cons| && ConsumerUses(s.cons[t], b)
    ensures b < |s.blocks| && b !in s.free && b !in s.others
  {
    var c := s.cons[t];
    assert ConsOk(s.ix, s.blocks, v, t, c);
    if c.Copy? || c.SetEmpty? {
      assert MappedOk(s.ix, s.blocks, s.cons, s.head, v, BlockOf(c.from));
    } else if c.Unindex? {
      assert MappedOk(s.ix, s.blocks, s.cons, s.head, v, BlockOf(c.r.i - 1));
    }
    assert PlaceOk(s.free, s.others, s.prod, s.cons, v, b);
  }

  /** The producer never writes through a tail block that it no longer owns, and a consumer never
      touches a block that is free or belongs to another producer. */
  lemma BlocksAreOwned(b: seq<State>, ops: seq<Op>, n: nat, block: Block, t: Tid)
    requires Run(b, ops) && n < |b|
    requires ProducerWrites(b[n], block) || (t < |b[n].cons| && ConsumerUses(b[n].cons[t], block))
    ensures block < |b[n].blocks| && block !in b[n].free && block !in b[n].others
  {
    var v := RunKeepsInv(b, ops, n);
    if ProducerWrites(b[n], block) { WriterOwns(b[n], v, block); } else { UserOwns(b[n], v, t, block); }
  }

  /** A step of this sub-queue, and not of the other producers. */
  predicate Own(op: Op) { op.StartEnqueue? || op.Produce? || op.Claim? || op.Consume? }

  /** requisition_block gives block x. */
  predicate Takes(s: State, op: Op, x: Block) { op.Produce? && op.ok && op.b == x && s.prod.GetBlock? }

  predicate OnlyMoves(s: State, op: Op, s': State, x: Block)
    requires Enabled(s, op) && x < |s.blocks|
  {
    && s'.others == s.others && |s'.blocks| == |s.blocks| && |s'.blocks[x].cells| == |s.blocks[x].cells|
    && (Takes(s, op, x) ==> x in s.free && x !in s'.free)
    && (!Takes(s, op, x) && (s'.blocks[x] != s.blocks[x] || (x in s'.free) != (x in s.free)) ==>
          ProducerWrites(s, x) || (op.Consume? && ConsumerUses(s.cons[op.t], x)))
    && (s'.blocks[x] != s.blocks[x] && x in s'.free ==> x in s.free)
  }

  lemma AllocationMovesBlocks(s: State, op: Op, s': State, x: Block)
    requires Step(s, op, s') && op.Produce? && x < |s.blocks| && Builds(s.prod)
    ensures OnlyMoves(s, op, s', x)
  {
    if !s.prod.GetBlock? && !s.prod.StoreValue? { assert s'.blocks == s.blocks && s'.free == s.free; }
  }

  lemma ProducerMovesBlocks(s: State, op: Op, s': State, x: Block)
    requires Step(s, op, s') && op.Produce? && x < |s.blocks|
    ensures OnlyMoves(s, op, s', x)
  {
    if Builds(s.prod) { AllocationMovesBlocks(s, op, s', x); }
  }

  lemma OnlyOwnBlocks(s: State, op: Op, s': State, x: Block)
    requires Step(s, op, s') && Own(op) && x < |s.blocks|
    ensures OnlyMoves(s, op, s', x)
  {
    if op.Produce? { ProducerMovesBlocks(s, op, s', x); }
  }

  /** What a step of this sub-queue is for the other producers, that is, what they take it to be: it leaves
      their blocks alone; a block of the pool it leaves alone or takes; and its own blocks it changes, or
      gives back unchanged. */
  lemma OthersSeeOnlyMoves(b: seq<State>, ops: seq<Op>, k: nat, x: Block)
    requires Run(b, ops) && k < |ops| && Own(ops[k]) && x < |b[k].blocks|
    ensures x < |b[k + 1].blocks| && |b[k + 1].blocks[x].cells| == BLOCK_SIZE && b[k + 1].others == b[k].others
    ensures x in b[k].others ==> b[k + 1].blocks[x] == b[k].blocks[x] && x !in b[k + 1].free
    ensures x in b[k].free ==> Takes(b[k], ops[k], x) || (b[k + 1].blocks[x] == b[k].blocks[x] && x in b[k + 1].free)
    ensures x !in b[k].others && x !in b[k].free ==> x !in b[k + 1].free || b[k + 1].blocks[x] == b[k].blocks[x]
  {
    var v := RunKeepsInv(b, ops, k);
    assert Step(b[k], ops[k], b[k + 1]);
    OnlyOwnBlocks(b[k], ops[k], b[k + 1], x);
    assert PlaceOk(b[k].free, b[k].others, b[k].prod, b[k].cons, v, x);
    if ProducerWrites(b[k], x) { WriterOwns(b[k], v, x); }
    if ops[k].Consume? && ConsumerUses(b[k].cons[ops[k].t], x) { UserOwns(b[k], v, ops[k].t, x); }
  }

  /** Where a block can be: in the pool, with another producer, in the index under a block number, just
      requisitioned, on its way from a consumer to the pool, or given back by a failed call. */
  datatype Where = InPool | WithOthers | InIndex(q: nat) | Held | FreedBy(t: Tid) | GivenBack

  ghost predicate IsAt(s: State, b: Block, w: Where) {
    match w
    case InPool => b in s.free
    case WithOthers => b in s.others
    case InIndex(q) => Indexed(s, q, b)
    case Held => s.prod.StoreValue? && s.prod.b == b
    case FreedBy(t) => t < |s.cons| && s.cons[t].FreeBlock? && s.cons[t].b == b
    case GivenBack => exists list :: Returned(s, list) && b in list
  }

  /** The block that block number q uses, if any: an entry of the current header with that key.  The
      entry that the producer has keyed but not yet filled does not count: its value may be left over. */
  predicate Indexed(s: State, q: nat, b: Block) {
    |s.ix.headers| > 0 && exists i :: 0 <= i < |Cur(s.ix).index| && EntryHolds(s, Cur(s.ix).index[i], q, b)
  }

  predicate EntryHolds(s: State, e: EntryId, q: nat, b: Block) {
    e < |s.ix.entries| && s.ix.entries[e] == Entry(Base(q), At(b)) && !Unfilled(s.prod, e)
  }

  predicate Unfilled(prod: Prod, e: EntryId) {
    (prod.StoreTail? || prod.GetBlock? || prod.StoreValue? || prod.DropTail? || prod.DropValue?) && prod.e == e
  }

  /** The next pointers lead from p over the blocks of list to end. */
  predicate Leads(blocks: seq<Mem>, p: Ptr, list: seq<Block>, end: Ptr)
    decreases |list|
  {
    if list == [] then p == end
    else p == At(list[0]) && list[0] < |blocks| && Leads(blocks, blocks[list[0]].next, list[1..], end)
  }

  /** The blocks of a failed call that are out of the index and not yet in the pool. */
  predicate Returned(s: State, list: seq<Block>) {
    match s.prod
    case UndoValue(c, cur, _) => Leads(s.blocks, c.first, list, cur)
    case UndoTail(c, cur, _) => cur.At? && cur.b < |s.blocks| && Leads(s.blocks, c.first, list, s.blocks[cur.b].next)
    case FreeChain(_, cur) => Leads(s.blocks, cur, list, Null)
    case _ => false
  }

  function PtrAt(pend: seq<Block>, i: nat): Ptr { if i < |pend| then At(pend[i]) else Null }

  predicate Distinct(pend: seq<Block>, from: nat) {
    forall i, j :: from <= i < j < |pend| ==> pend[i] != pend[j]
  }

  lemma {:induction false} ChainLeads(blocks: seq<Mem>, pend: seq<Block>, from: nat, k: nat, m: nat)
    requires Chain(blocks, pend, from) && from <= k <= m <= |pend|
    ensures Leads(blocks, PtrAt(pend, k), pend[k..m], PtrAt(pend, m))
    decreases m - k
  {
    if k < m {
      assert LinkOk(blocks, pend, k);
      ChainLeads(blocks, pend, from, k + 1, m);
      assert pend[k..m][1..] == pend[k + 1..m];
    }
  }

  lemma {:induction false} OnlyChainLeads(blocks: seq<Mem>, pend: seq<Block>, from: nat, k: nat, m: nat, list: seq<Block>)
    requires Chain(blocks, pend, from) && Distinct(pend, from) && from <= k <= |pend| && from <= m <= |pend|
    requires Leads(blocks, PtrAt(pend, k), list, PtrAt(pend, m))
    ensures k <= m && list == pend[k..m]
    decreases |list|
  {
    if list != [] {
      assert LinkOk(blocks, pend, k);
      OnlyChainLeads(blocks, pend, from, k + 1, m, list[1..]);
    }
  }

  function WhereIs(p: Place): Where {
    match p
    case Free => InPool
    case Others => WithOthers
    case Used(q) => InIndex(q)
    case Last(q, _) => InIndex(q)
    case Held => Where.Held
    case Freeing(t) => FreedBy(t)
    case Undone(_) => GivenBack
  }

  /** The blocks of a failed call that are undone and not yet free are numbers from..to of the call. */
  function UndoneFrom(s: State, v: History): nat { if s.prod.FreeChain? then v.w else 0 }

  function UndoneTo(s: State, v: History): int {
    match s.prod
    case UndoValue(_, _, q) => q - Blocks(s.tail)
    case UndoTail(_, _, q) => q + 1 - Blocks(s.tail)
    case _ => |v.pend|
  }

  lemma UndoneRange(s: State, v: History)
    requires Body(s, v) && Undoes(s.prod)
    ensures UndoneFrom(s, v) <= UndoneTo(s, v) <= |v.pend| && Chain(s.blocks, v.pend, UndoneFrom(s, v))
    ensures forall i :: UndoneFrom(s, v) <= i < UndoneTo(s, v) ==> UndoneAt(v.place, v.pend, i)
    ensures forall i :: UndoneTo(s, v) <= i < |v.pend| ==> BuiltAt(v.blk, v.pend, s.tail, i)
    ensures forall list :: Returned(s, list) <==> Leads(s.blocks, PtrAt(v.pend, UndoneFrom(s, v)), list, PtrAt(v.pend, UndoneTo(s, v)))
  {
    if s.prod.UndoTail? { assert LinkOk(s.blocks, v.pend, UndoneTo(s, v) - 1); }
  }

  lemma PendIsDistinct(s: State, v: History)
    requires Body(s, v) && Undoes(s.prod)
    ensures Distinct(v.pend, UndoneFrom(s, v))
    ensures forall i :: UndoneTo(s, v) <= i < |v.pend| ==> v.pend[i] < |v.place| && !v.place[v.pend[i]].Undone?
  {
    UndoneRange(s, v);
    var from, to := UndoneFrom(s, v), UndoneTo(s, v);
    forall i | from <= i < |v.pend|
      ensures v.pend[i] < |v.place| && var p := v.place[v.pend[i]]; if i < to then p == Undone(i) else WhereIs(p) == InIndex(Blocks(s.tail) + i)
    {
      if i < to {
        assert UndoneAt(v.place, v.pend, i);
      } else {
        assert BuiltAt(v.blk, v.pend, s.tail, i) && MappedOk(s.ix, s.blocks, s.cons, s.head, v, Blocks(s.tail) + i);
      }
    }
  }

  lemma GivenBackIs(s: State, v: History, b: Block)
    requires Body(s, v) && b < |v.place|
    ensures IsAt(s, b, GivenBack) <==> v.place[b].Undone?
  {
    assert PlaceOk(s.free, s.others, s.prod, s.cons, v, b);
    if Undoes(s.prod) {
      UndoneRange(s, v);
      PendIsDistinct(s, v);
      InRange(s, v, b, v.pend[UndoneFrom(s, v)..UndoneTo(s, v)]);
    }
  }

  lemma InRange(s: State, v: History, b: Block, part: seq<Block>)
    requires Undoes(s.prod) && UndoneFrom(s, v) <= UndoneTo(s, v) <= |v.pend| && part == v.pend[UndoneFrom(s, v)..UndoneTo(s, v)]
    requires b < |v.place| && PlaceOk(s.free, s.others, s.prod, s.cons, v, b)
    requires Chain(s.blocks, v.pend, UndoneFrom(s, v)) && Distinct(v.pend, UndoneFrom(s, v))
    requires forall i :: UndoneFrom(s, v) <= i < UndoneTo(s, v) ==> UndoneAt(v.place, v.pend, i)
    requires forall i :: UndoneTo(s, v) <= i < |v.pend| ==> v.pend[i] < |v.place| && !v.place[v.pend[i]].Undone?
    requires forall list :: Returned(s, list) <==> Leads(s.blocks, PtrAt(v.pend, UndoneFrom(s, v)), list, PtrAt(v.pend, UndoneTo(s, v)))
    ensures IsAt(s, b, GivenBack) <==> v.place[b].Undone?
  {
    var from, to := UndoneFrom(s, v), UndoneTo(s, v);
    ChainLeads(s.blocks, v.pend, from, from, to);
    forall list | Returned(s, list) ensures list == part { OnlyChainLeads(s.blocks, v.pend, from, from, to, list); }
    if v.place[b].Undone? { assert part[v.place[b].i - from] == b; }
    forall k | 0 <= k < |part| ensures part[k] < |v.place| && v.place[part[k]].Undone? { assert UndoneAt(v.place, v.pend, from + k); }
  }

  lemma IndexedIs(s: State, v: History, q: nat, b: Block)
    requires SubQueueProof.Inv(s, v) && b < |v.place|
    ensures Indexed(s, q, b) <==> q in v.blk && v.blk[q] == b
    ensures q in v.blk && v.blk[q] == b <==> WhereIs(v.place[b]) == InIndex(q)
  {
    assert PlaceOk(s.free, s.others, s.prod, s.cons, v, b);
    if q in v.blk {
      assert MappedOk(s.ix, s.blocks, s.cons, s.head, v, q) && InUse(s.ix, v.iv, q) && Keyed(s.ix, v.iv, q);
      if v.blk[q] == b {
        var i := Slot(Cur(s.ix), v.iv.shift[|v.iv.shift| - 1], q);
        assert EntryHolds(s, Cur(s.ix).index[i], q, b);
      }
    }
    forall e | EntryHolds(s, e, q, b) ensures q in v.blk && v.blk[q] == b {
      assert Accounted(s.ix, v.iv, e) && e !in v.iv.open;
      assert MappedOk(s.ix, s.blocks, s.cons, s.head, v, q);
    }
  }

  lemma PlaceIsWhere(s: State, v: History, b: Block, w: Where)
    requires SubQueueProof.Inv(s, v) && b < |v.place|
    ensures IsAt(s, b, w) <==> w == WhereIs(v.place[b])
  {
    assert PlaceOk(s.free, s.others, s.prod, s.cons, v, b);
    match w {
      case GivenBack => GivenBackIs(s, v, b);
      case InIndex(q) => IndexedIs(s, v, q, b);
      case FreedBy(t) => if t < |s.cons| { assert ConsOk(s.ix, s.blocks, v, t, s.cons[t]); }
      case _ =>
    }
  }

  /** At all times each block is in exactly one place, and each block number has at most one block. */
  lemma EveryBlockHasItsPlace(b: seq<State>, ops: seq<Op>, n: nat, block: Block) returns (w: Where)
    requires Run(b, ops) && n < |b| && block < |b[n].blocks|
    ensures IsAt(b[n], block, w)
    ensures forall w' :: IsAt(b[n], block, w') ==> w' == w
    ensures forall other: Block :: w.InIndex? && other < |b[n].blocks| && Indexed(b[n], w.q, other) ==> other == block
  {
    var v := RunKeepsInv(b, ops, n);
    w := WhereIs(v.place[block]);
    forall w' ensures IsAt(b[n], block, w') <==> w' == w { PlaceIsWhere(b[n], v, block, w'); }
    forall other: Block | w.InIndex? && other < |b[n].blocks| && Indexed(b[n], w.q, other) ensures other == block {
      IndexedIs(b[n], v, w.q, other);
      IndexedIs(b[n], v, w.q, block);
    }
  }

  /** No block is with a call of the producer, and none is in the index beyond the tail. */
  ghost predicate NothingPending(s: State) {
    forall b: Block, w :: b < |s.blocks| && IsAt(s, b, w) ==>
      w.InPool? || w.WithOthers? || w.FreedBy? || (w.InIndex? && w.q < Blocks(s.tail))
  }

  /** The tail of the index stands on the entry of the last block, if an element is left. */
  predicate TailEntry(s: State) {
    WellFormed(s.ix) && (s.head < s.tail ==> KeyAt(s.ix, |s.ix.headers| - 1, Cur(s.ix).tail) == Base(Blocks(s.tail) - 1))
  }

  lemma ReadyPlaces(s: State, v: History)
    requires SubQueueProof.Inv(s, v) && s.prod.Ready?
    ensures NothingPending(s)
  {
    forall block: Block, w | block < |s.blocks| && IsAt(s, block, w)
      ensures w.InPool? || w.WithOthers? || w.FreedBy? || (w.InIndex? && w.q < Blocks(s.tail))
    {
      PlaceIsWhere(s, v, block, w);
      assert PlaceOk(s.free, s.others, s.prod, s.cons, v, block);
    }
  }

  lemma ReadyTail(s: State, v: History)
    requires SubQueueProof.Inv(s, v) && s.prod.Ready?
    ensures TailEntry(s)
  {
    if s.head < s.tail {
      LiveUsed(s, v, Blocks(s.tail) - 1);
      assert InUse(s.ix, v.iv, Blocks(s.tail) - 1) && Keyed(s.ix, v.iv, Blocks(s.tail) - 1);
    }
  }

  /** After every call, successful or not and whatever the consumers are doing, all blocks that the call
      had requisitioned and not filled are back, and the index ends with the last block. */
  lemma NothingIsLeft(b: seq<State>, ops: seq<Op>, n: nat)
    requires Run(b, ops) && n < |b| && b[n].prod.Ready?
    ensures NothingPending(b[n]) && TailEntry(b[n])
  {
    var v := RunKeepsInv(b, ops, n);
    ReadyPlaces(b[n], v);
    ReadyTail(b[n], v);
  }

  /** Nobody is at work on this sub-queue. */
  predicate Quiet(s: State) { s.prod.Ready? && forall t :: 0 <= t < |s.cons| ==> s.cons[t].Idle? }

  lemma QuietUsed(s: State, v: History, q: nat)
    requires Body(s, v) && Quiet(s) && q in v.blk
    ensures s.head < BLOCK_SIZE * q + BLOCK_SIZE && BLOCK_SIZE * q < s.tail
  {
    assert MappedOk(s.ix, s.blocks, s.cons, s.head, v, q);
    forall t | 0 <= t < |s.cons| ensures Overlap(q)(s.cons[t]) == 0 { assert ConsOk(s.ix, s.blocks, v, t, s.cons[t]); }
    SumZero(s.cons, Overlap(q));
    assert PlaceOk(s.free, s.others, s.prod, s.cons, v, v.blk[q]);
  }

  lemma LiveUsed(s: State, v: History, q: nat)
    requires AllLive(s.blocks, s.head, v) && s.head <= s.tail <= |v.log| && TailOk(v.blk, s.tailBlock, s.tail)
    requires s.head < BLOCK_SIZE * q + BLOCK_SIZE && BLOCK_SIZE * q < s.tail
    ensures q in v.blk
  {
    var j := if s.head < BLOCK_SIZE * q then BLOCK_SIZE * q else s.head;
    assert j < s.tail ==> HasElem(s.blocks, v, j) && BlockOf(j) == q;
  }

  lemma QuietMapped(s: State, v: History, q: nat)
    requires Body(s, v) && Quiet(s)
    ensures q in v.blk <==> s.head < BLOCK_SIZE * q + BLOCK_SIZE && BLOCK_SIZE * q < s.tail
  {
    if q in v.blk {
      QuietUsed(s, v, q);
    } else if s.head < BLOCK_SIZE * q + BLOCK_SIZE && BLOCK_SIZE * q < s.tail {
      LiveUsed(s, v, q);
    }
  }

  /** Between operations each block is in the pool, with another producer, or in the index under a block
      number between headIndex and tailIndex; so after a failed call every block it had requisitioned is
      back with the others. */
  lemma QuietBlocks(b: seq<State>, ops: seq<Op>, n: nat, block: Block) returns (w: Where)
    requires Run(b, ops) && n < |b| && Quiet(b[n]) && block < |b[n].blocks|
    ensures IsAt(b[n], block, w) && forall w' :: IsAt(b[n], block, w') ==> w' == w
    ensures w.InPool? || w.WithOthers? || (w.InIndex? && b[n].head < BLOCK_SIZE * w.q + BLOCK_SIZE && BLOCK_SIZE * w.q < b[n].tail)
  {
    var s := b[n];
    var v := RunKeepsInv(b, ops, n);
    w := WhereIs(v.place[block]);
    forall w' ensures IsAt(s, block, w') <==> w' == w { PlaceIsWhere(s, v, block, w'); }
    assert PlaceOk(s.free, s.others, s.prod, s.cons, v, block);
    if w.InIndex? { QuietMapped(s, v, w.q); }
  }

  /** And every block number between headIndex and tailIndex has its block. */
  lemma QuietIndex(b: seq<State>, ops: seq<Op>, n: nat, q: nat) returns (block: Block)
    requires Run(b, ops) && n < |b| && Quiet(b[n])
    requires b[n].head < BLOCK_SIZE * q + BLOCK_SIZE && BLOCK_SIZE * q < b[n].tail
    ensures block < |b[n].blocks| && Indexed(b[n], q, block)
  {
    var s := b[n];
    var v := RunKeepsInv(b, ops, n);
    QuietMapped(s, v, q);
    block := v.blk[q];
    assert MappedOk(s.ix, s.blocks, s.cons, s.head, v, q);
    IndexedIs(s, v, q, block);
  }

  lemma EmptiedOnce(s: State, v: History, t: Tid, u: Tid) returns (q: nat)
    requires Body(s, v) && t < |s.cons| && u < |s.cons| && s.cons[t].Unindex?
    ensures (s.cons[u].Unindex? || s.cons[u].FreeBlock?) && s.cons[u].b == s.cons[t].b ==> u == t
    ensures s.cons[t].r.i > 0 && q == BlockOf(s.cons[t].r.i - 1) && BLOCK_SIZE * q + BLOCK_SIZE <= s.head
    ensures !s.cons[u].ConsFault? && Overlap(q)(s.cons[u]) == 0 && s.cons[u].r.i <= s.cons[u].r.hi
  {
    assert ConsOk(s.ix, s.blocks, v, t, s.cons[t]) && ConsOk(s.ix, s.blocks, v, u, s.cons[u]);
    q := BlockOf(s.cons[t].r.i - 1);
    assert MappedOk(s.ix, s.blocks, s.cons, s.head, v, q);
    FullMeansDone(s, v, q);
  }

  /** set_empty reports an empty block to one consumer only, and by then every element of the block has
      been claimed, and no consumer has one left to move out. */
  lemma EmptyOnce(b: seq<State>, ops: seq<Op>, n: nat, t: Tid, u: Tid) returns (q: nat)
    requires Run(b, ops) && n < |b| && t < |b[n].cons| && u < |b[n].cons| && b[n].cons[t].Unindex?
    ensures (b[n].cons[u].Unindex? || b[n].cons[u].FreeBlock?) && b[n].cons[u].b == b[n].cons[t].b ==> u == t
    ensures b[n].cons[t].r.i > 0 && q == BlockOf(b[n].cons[t].r.i - 1) && BLOCK_SIZE * q + BLOCK_SIZE <= b[n].head
    ensures Overlap(q)(b[n].cons[u]) == 0
  {
    var v := RunKeepsInv(b, ops, n);
    q := EmptiedOnce(b[n], v, t, u);
  }
}
