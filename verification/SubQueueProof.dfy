/** The invariant of a sub-queue, and that every step keeps it. */
module SubQueueProof {
  import opened BlockIndex
  import opened SubQueue
  import opened Sums

  /** Where a block is.  Used(q): in the index as block number q.  Last(q, t): the same, but empty, and
      consumer t is about to take it out.  Undone(i): the i-th block of a call that failed. */
  datatype Place =
    | Free | Others | Used(q: nat) | Last(q: nat, t: Tid) | Held | Freeing(t: Tid) | Undone(i: nat)

  /** History.  iv: of the index.  log: every element ever written, in order.  own: who claimed each
      index.  blk: the block of each block number in use.  place: of every block.  pend: the blocks
      allocated by the current call.  w: the block number being written, or the blocks freed so far. */
  datatype History = History(iv: BlockIndex.View, log: seq<Elem>, own: seq<Tid>, blk: map<nat, Block>,
                             place: seq<Place>, pend: seq<Block>, w: nat)

  /** How many of the first n elements are in block q. */
  function Clip(n: nat, q: nat): int {
    if n <= BLOCK_SIZE * q then 0 else if n >= BLOCK_SIZE * q + BLOCK_SIZE then BLOCK_SIZE else n - BLOCK_SIZE * q
  }

  /** The elements a consumer has claimed and not yet counted in elementsCompletelyDequeued. */
  function Lo(c: Cons): nat {
    match c
    case Copy(_, _, _, _, from) => from
    case SetEmpty(_, _, _, _, from) => from
    case ConsFault => 0
    case _ => c.r.i
  }

  function Hi(c: Cons): nat { if c.ConsFault? then 0 else c.r.hi }

  function Overlap(q: nat): Cons -> int { c => Clip(Hi(c), q) - Clip(Lo(c), q) }

  /** Consumer c still relies on block q. */
  predicate Wants(c: Cons, q: nat) { Overlap(q)(c) > 0 || (c.Unindex? && c.r.i > 0 && q == BlockOf(c.r.i - 1)) }

  /** Element j is in place. */
  predicate HasElem(blocks: seq<Mem>, v: History, j: nat) {
    && j < |v.log| && BlockOf(j) in v.blk && v.blk[BlockOf(j)] < |blocks|
    && |blocks[v.blk[BlockOf(j)]].cells| == BLOCK_SIZE
    && blocks[v.blk[BlockOf(j)]].cells[CellOf(j)] == Full(v.log[j])
  }

  // ---------------------------------------------------------------------------------------------
  // Consumers
  // ---------------------------------------------------------------------------------------------

  predicate SeesBlock(ix: Index, v: History, k: nat, q: nat) {
    Shaped(ix, v.iv) && k < |ix.headers| && q in v.iv.ent && Sees(ix, v.iv, k, q)
  }

  /** slot of header k is the slot of block q, and b is the block. */
  predicate AtBlock(ix: Index, v: History, k: nat, slot: nat, b: Block, q: nat) {
    SeesBlock(ix, v, k, q) && slot == Slot(ix.headers[k], v.iv.shift[k], q) && q in v.blk && v.blk[q] == b
  }

  predicate AtSlot(ix: Index, v: History, k: nat, slot: nat, q: nat) {
    Shaped(ix, v.iv) && k < |ix.headers| && slot == Slot(ix.headers[k], v.iv.shift[k], q)
  }

  ghost predicate RangeOk(blocks: seq<Mem>, v: History, t: Tid, r: Range) {
    && r.first <= r.i <= r.hi <= |v.own| && r.hi <= |v.log|
    && r.got == v.log[r.first..r.i]
    && (forall j :: r.first <= j < r.hi ==> v.own[j] == t)
    && (forall j :: r.i <= j < r.hi ==> HasElem(blocks, v, j))
  }

  ghost predicate Knows(ix: Index, v: History, k: nat, r: Range) {
    k < |ix.headers| && forall j :: r.i <= j < r.hi ==> SeesBlock(ix, v, k, BlockOf(j))
  }

  predicate KeyedTail(ix: Index, k: nat, tail: nat) {
    && k < |ix.headers| && tail < ix.headers[k].cap && tail < |ix.headers[k].index|
    && ix.headers[k].index[tail] < |ix.entries| && ix.entries[ix.headers[k].index[tail]].key.Base?
  }

  predicate PlaceIs(v: History, b: Block, p: Place) { b < |v.place| && v.place[b] == p }

  ghost predicate ConsOk(ix: Index, blocks: seq<Mem>, v: History, t: Tid, c: Cons) {
    var holds := !c.ConsFault? && RangeOk(blocks, v, t, c.r) &&
      match c
      case Idle(r) => r.i == r.hi
      case LoadHeader(r) => r.i < r.hi
      case LoadTail(r, k) => r.i < r.hi && Knows(ix, v, k, r)
      case LoadKey(r, k, tail) => r.i < r.hi && Knows(ix, v, k, r) && KeyedTail(ix, k, tail)
      case LoadValue(r, k, slot) => r.i < r.hi && Knows(ix, v, k, r) && AtSlot(ix, v, k, slot, BlockOf(r.i))
      case Copy(r, k, slot, b, from) =>
        r.first <= from <= r.i <= Stop(from, r.hi) && from < r.hi && Knows(ix, v, k, r) && AtBlock(ix, v, k, slot, b, BlockOf(from))
      case SetEmpty(r, k, slot, b, from) =>
        r.first <= from < r.i == Stop(from, r.hi) && Knows(ix, v, k, r) && AtBlock(ix, v, k, slot, b, BlockOf(from))
      case Unindex(r, k, slot, b) =>
        && r.first < r.i && (r.i == r.hi || CellOf(r.i) == 0) && Knows(ix, v, k, r)
        && AtBlock(ix, v, k, slot, b, BlockOf(r.i - 1)) && PlaceIs(v, b, Last(BlockOf(r.i - 1), t))
      case FreeBlock(r, k, slot, b) =>
        && r.first < r.i && (r.i == r.hi || CellOf(r.i) == 0) && Knows(ix, v, k, r)
        && AtSlot(ix, v, k, slot, BlockOf(r.i - 1)) && PlaceIs(v, b, Freeing(t));
    holds
  }

  // ---------------------------------------------------------------------------------------------
  // The producer
  // ---------------------------------------------------------------------------------------------

  /** The last block before index n, unless n starts a new one, is p. */
  predicate TailOk(blk: map<nat, Block>, p: Ptr, n: nat) {
    CellOf(n) != 0 ==> Blocks(n) - 1 in blk && p == At(blk[Blocks(n) - 1])
  }

  function NextIn(pend: seq<Block>, i: nat): Ptr { if i + 1 < |pend| then At(pend[i + 1]) else Null }

  predicate LinkOk(blocks: seq<Mem>, pend: seq<Block>, i: nat) {
    i < |pend| && pend[i] < |blocks| && blocks[pend[i]].next == NextIn(pend, i)
  }

  predicate Chain(blocks: seq<Mem>, pend: seq<Block>, from: nat) {
    forall i :: from <= i < |pend| ==> LinkOk(blocks, pend, i)
  }

  predicate BuiltAt(blk: map<nat, Block>, pend: seq<Block>, tail: nat, i: nat) {
    i < |pend| && Blocks(tail) + i in blk && blk[Blocks(tail) + i] == pend[i]
  }

  /** The blocks of the call from the m-th on are in the index. */
  predicate Built(blk: map<nat, Block>, pend: seq<Block>, tail: nat, m: nat) {
    forall i :: m <= i < |pend| ==> BuiltAt(blk, pend, tail, i)
  }

  predicate ClearedAt(blk: map<nat, Block>, tail: nat, i: nat) { Blocks(tail) + i !in blk }

  /** The first m blocks of the call have been taken out of the index again. */
  predicate Cleared(blk: map<nat, Block>, tail: nat, m: nat) { forall i :: 0 <= i < m ==> ClearedAt(blk, tail, i) }

  predicate UndoneAt(place: seq<Place>, pend: seq<Block>, i: nat) {
    i < |pend| && pend[i] < |place| && place[pend[i]] == Undone(i)
  }

  predicate AllUndone(place: seq<Place>, pend: seq<Block>, a: nat, b: nat) {
    forall i :: a <= i < b ==> UndoneAt(place, pend, i)
  }

  function EndOf(pend: seq<Block>, c: Call): Ptr { if pend == [] then c.start else At(pend[|pend| - 1]) }

  predicate CallOk(blk: map<nat, Block>, pend: seq<Block>, tail: nat, c: Call) {
    && TailOk(blk, c.start, tail)
    && |pend| + c.left == Blocks(tail + |c.items|) - Blocks(tail)
    && c.first == (if pend == [] then Null else At(pend[0]))
  }

  predicate StartLinked(blocks: seq<Mem>, pend: seq<Block>, tail: nat, c: Call) {
    CellOf(tail) != 0 && pend != [] ==> c.start.At? && c.start.b < |blocks| && blocks[c.start.b].next == At(pend[0])
  }

  predicate Building(blocks: seq<Mem>, tailBlock: Ptr, blk: map<nat, Block>, pend: seq<Block>, tail: nat, c: Call) {
    && CallOk(blk, pend, tail, c) && Built(blk, pend, tail, 0) && Chain(blocks, pend, 0)
    && tailBlock == EndOf(pend, c) && StartLinked(blocks, pend, tail, c)
  }

  /** Blocks allocated by the call, inserted so far; the next entry is not open. */
  predicate Inserted(v: History, tail: nat, extra: int) {
    v.iv.ins == Blocks(tail) + |v.pend| + extra && v.iv.open == {}
  }

  predicate OpenAt(ix: Index, v: History, e: EntryId, q: int) {
    Shaped(ix, v.iv) && v.iv.open == {e} && e == CurEntry(ix, v.iv, q) && e < |ix.entries|
  }

  predicate VacantAt(ix: Index, v: History, q: int) {
    Shaped(ix, v.iv) && CurEntry(ix, v.iv, q) < |ix.entries| && Vacant(ix, CurEntry(ix, v.iv, q))
  }

  predicate Writing(v: History, tail: nat, tailBlock: Ptr, c: Call, i: nat, stop: nat) {
    if c.items == [] then i == stop == tail && tailBlock == EndOf(v.pend, c)
    else
      && v.w in v.blk && tailBlock == At(v.blk[v.w]) && v.w < Blocks(tail + |c.items|)
      && tail < BLOCK_SIZE * v.w + BLOCK_SIZE && BLOCK_SIZE * v.w <= i <= stop
      && stop == Min(BLOCK_SIZE * v.w + BLOCK_SIZE, tail + |c.items|)
  }

  predicate ProdOk(ix: Index, blocks: seq<Mem>, tail: nat, tailBlock: Ptr, v: History, prod: Prod) {
    var holds :=
      match prod
      case Ready(_) => v.pend == [] && Inserted(v, tail, 0) && TailOk(v.blk, tailBlock, tail)
      case Check(c) => Building(blocks, tailBlock, v.blk, v.pend, tail, c) && c.left > 0 && Inserted(v, tail, 0)
      case NeedIndex(c) =>
        Building(blocks, tailBlock, v.blk, v.pend, tail, c) && c.left > 0 && Inserted(v, tail, 0) && v.iv.lo < v.iv.ins == v.iv.hi
      case StoreKey(c) =>
        Building(blocks, tailBlock, v.blk, v.pend, tail, c) && c.left > 0 && Inserted(v, tail, 0) && VacantAt(ix, v, v.iv.ins)
      case StoreTail(c, e) =>
        && Building(blocks, tailBlock, v.blk, v.pend, tail, c) && c.left > 0 && v.iv.ins == Blocks(tail) + |v.pend| < v.iv.hi
        && OpenAt(ix, v, e, v.iv.ins)
      case GetBlock(c, e) =>
        && Building(blocks, tailBlock, v.blk, v.pend, tail, c) && c.left > 0 && v.iv.ins == Blocks(tail) + |v.pend| + 1
        && OpenAt(ix, v, e, v.iv.ins - 1)
      case StoreValue(c, e, b) =>
        && Building(blocks, tailBlock, v.blk, v.pend, tail, c) && c.left > 0 && v.iv.ins == Blocks(tail) + |v.pend| + 1
        && OpenAt(ix, v, e, v.iv.ins - 1)
        && b < |blocks| && PlaceIs(v, b, Held) && blocks[b].done == 0 && blocks[b].next == Null
      case DropTail(c, e) =>
        && Building(blocks, tailBlock, v.blk, v.pend, tail, c) && c.left > 0 && v.iv.ins == Blocks(tail) + |v.pend| + 1
        && OpenAt(ix, v, e, v.iv.ins - 1)
      case DropValue(c, e) =>
        && Building(blocks, tailBlock, v.blk, v.pend, tail, c) && c.left > 0 && v.iv.ins == Blocks(tail) + |v.pend| < v.iv.hi
        && OpenAt(ix, v, e, v.iv.ins)
      case Write(c, end, i, stop) =>
        && CallOk(v.blk, v.pend, tail, c) && Built(v.blk, v.pend, tail, 0) && Chain(blocks, v.pend, 0) && StartLinked(blocks, v.pend, tail, c)
        && c.left == 0 && Inserted(v, tail, 0) && end == EndOf(v.pend, c)
        && tail <= i == |v.log| && i <= tail + |c.items| && v.log[tail..] == c.items[..i - tail]
        && Writing(v, tail, tailBlock, c, i, stop)
      case Publish(c) =>
        && |v.pend| == Blocks(tail + |c.items|) - Blocks(tail) && Inserted(v, tail, 0)
        && |v.log| == tail + |c.items| && v.log[tail..] == c.items && TailOk(v.blk, tailBlock, tail + |c.items|)
      case UndoValue(c, cur, q) =>
        && CallOk(v.blk, v.pend, tail, c) && Chain(blocks, v.pend, 0) && Blocks(tail) <= q <= Blocks(tail) + |v.pend|
        && Built(v.blk, v.pend, tail, q - Blocks(tail)) && AllUndone(v.place, v.pend, 0, q - Blocks(tail)) && Cleared(v.blk, tail, q - Blocks(tail))
        && Inserted(v, tail, Blocks(tail) - q)
        && cur == (if q < Blocks(tail) + |v.pend| then At(v.pend[q - Blocks(tail)]) else Null)
      case UndoTail(c, cur, q) =>
        && CallOk(v.blk, v.pend, tail, c) && Chain(blocks, v.pend, 0) && Blocks(tail) <= q < Blocks(tail) + |v.pend|
        && Built(v.blk, v.pend, tail, q + 1 - Blocks(tail)) && AllUndone(v.place, v.pend, 0, q + 1 - Blocks(tail)) && Cleared(v.blk, tail, q + 1 - Blocks(tail))
        && Inserted(v, tail, Blocks(tail) - q)
        && cur == At(v.pend[q - Blocks(tail)])
      case FreeChain(c, cur) =>
        && TailOk(v.blk, c.start, tail) && v.w <= |v.pend| && Chain(blocks, v.pend, v.w) && AllUndone(v.place, v.pend, v.w, |v.pend|)
        && Cleared(v.blk, tail, |v.pend|) && Inserted(v, tail, -|v.pend|)
        && cur == (if v.w < |v.pend| then At(v.pend[v.w]) else Null)
      case ProdFault => false;
    holds
  }

  // ---------------------------------------------------------------------------------------------
  // The whole invariant
  // ---------------------------------------------------------------------------------------------

  /** The elements written, published or not. */
  function Written(prod: Prod, tail: nat): nat {
    match prod
    case Write(_, _, i, _) => i
    case Publish(c) => tail + |c.items|
    case _ => tail
  }

  ghost predicate Numbers(s: State, v: History) {
    && |v.own| == s.head <= s.tail <= |v.log| == Written(s.prod, s.tail)
    && v.iv.lo <= Blocks(s.tail) <= v.iv.ins
    && |s.ix.headers| > 0 && v.iv.hi - Cur(s.ix).cap <= Blocks(s.tail)
    && |v.place| == |s.blocks|
    && v.blk.Keys == v.iv.ent.Keys
    && (forall b :: b in s.free || b in s.others ==> b < |s.blocks|)
    && AllCells(s.blocks)
  }

  /** Block number q is in use: the index says where, and elementsCompletelyDequeued together with the
      claims still at work on it accounts for every claimed element. */
  ghost predicate MappedOk(ix: Index, blocks: seq<Mem>, cons: seq<Cons>, head: nat, v: History, q: nat)
    requires q in v.blk
  {
    var b := v.blk[q];
    && q in v.iv.ent && v.iv.ent[q] < |ix.entries| && ix.entries[v.iv.ent[q]].value == At(b)
    && b < |blocks| && b < |v.place|
    && (v.place[b] == Used(q) || (v.place[b].Last? && v.place[b].q == q))
    && blocks[b].done + Sum(cons, Overlap(q)) == Clip(head, q)
    && (v.place[b].Last? <==> blocks[b].done == BLOCK_SIZE)
    && blocks[b].done <= BLOCK_SIZE
  }

  /** Every block is where its place says, and there only. */
  predicate PlaceOk(free: set<Block>, others: set<Block>, prod: Prod, cons: seq<Cons>, v: History, b: Block)
    requires b < |v.place|
  {
    && (b in free <==> v.place[b].Free?) && (b in others <==> v.place[b].Others?)
    && match v.place[b]
       case Used(q) => q in v.blk && v.blk[q] == b
       case Last(q, t) => q in v.blk && v.blk[q] == b && t < |cons| && cons[t].Unindex? && cons[t].b == b
       case Freeing(t) => t < |cons| && cons[t].FreeBlock? && cons[t].b == b
       case Held => prod.StoreValue? && prod.b == b
       case Undone(i) => 
         && (prod.UndoValue? || prod.UndoTail? || (prod.FreeChain? && v.w <= i)) && i < |v.pend| && v.pend[i] == b
       case _ => true
  }

  ghost predicate AllMapped(ix: Index, blocks: seq<Mem>, cons: seq<Cons>, head: nat, v: History) {
    forall q {:trigger MappedOk(ix, blocks, cons, head, v, q)} :: q in v.blk ==> MappedOk(ix, blocks, cons, head, v, q)
  }

  predicate AllPlaced(free: set<Block>, others: set<Block>, prod: Prod, cons: seq<Cons>, v: History) {
    forall b :: 0 <= b < |v.place| ==> PlaceOk(free, others, prod, cons, v, b)
  }

  predicate AllLive(blocks: seq<Mem>, head: nat, v: History) {
    forall j :: head <= j < |v.log| ==> HasElem(blocks, v, j)
  }

  ghost predicate AllCons(ix: Index, blocks: seq<Mem>, v: History, cons: seq<Cons>) {
    forall t {:trigger ConsOk(ix, blocks, v, t, cons[t])} :: 0 <= t < |cons| ==> ConsOk(ix, blocks, v, t, cons[t])
  }

  predicate Below(tail: nat, v: History) { forall q :: q in v.blk ==> q < Blocks(tail) + |v.pend| }

  /** Everything but the index itself.  Like the predicates on program counters, it is bound to a name, so
      that it is proved and used as a whole and not spelled out wherever it occurs. */
  ghost predicate Body(s: State, v: History) {
    var holds :=
      && Shaped(s.ix, v.iv)
      && Numbers(s, v)
      && Below(s.tail, v)
      && AllMapped(s.ix, s.blocks, s.cons, s.head, v)
      && AllPlaced(s.free, s.others, s.prod, s.cons, v)
      && AllLive(s.blocks, s.head, v)
      && AllCons(s.ix, s.blocks, v, s.cons)
      && ProdOk(s.ix, s.blocks, s.tail, s.tailBlock, v, s.prod);
    holds
  }

  ghost predicate Inv(s: State, v: History) { BlockIndex.Inv(s.ix, v.iv) && Body(s, v) }

  // ---------------------------------------------------------------------------------------------
  // What does not change
  // ---------------------------------------------------------------------------------------------

  /** Published headers stay where they are, and a key once stored is never taken away. */
  predicate Extends(ix: Index, iv: BlockIndex.View, ix': Index, iv': BlockIndex.View) {
    && Shaped(ix, iv) && Shaped(ix', iv') && |ix.headers| <= |ix'.headers| && |ix.entries| <= |ix'.entries|
    && (forall k :: 0 <= k < |ix.headers| ==>
          ix'.headers[k].cap == ix.headers[k].cap && ix'.headers[k].index == ix.headers[k].index && iv'.shift[k] == iv.shift[k])
    && (forall e :: 0 <= e < |ix.entries| ==> (ix.entries[e].key.Base? ==> ix'.entries[e].key.Base?))
  }

  predicate SameBlock(v: History, v': History, q: nat)
    requires q in v.blk
  {
    && q in v.iv.ent && q in v'.blk && v'.blk[q] == v.blk[q] && q in v'.iv.ent && v'.iv.ent[q] == v.iv.ent[q]
  }

  lemma RangeStays(blocks: seq<Mem>, v: History, blocks': seq<Mem>, v': History, t: Tid, r: Range)
    requires RangeOk(blocks, v, t, r) && v.log <= v'.log && v.own <= v'.own
    requires forall j :: r.i <= j < r.hi && HasElem(blocks, v, j) ==> HasElem(blocks', v', j)
    ensures RangeOk(blocks', v', t, r)
  {
  }

  lemma KnowsStays(ix: Index, v: History, ix': Index, v': History, k: nat, c: Cons)
    requires !c.ConsFault? && Knows(ix, v, k, c.r) && Extends(ix, v.iv, ix', v'.iv) && Lo(c) <= c.r.i
    requires forall j :: c.r.i <= j < c.r.hi ==> BlockOf(j) in v.blk
    requires forall q :: q in v.blk && Wants(c, q) ==> SameBlock(v, v', q)
    ensures Knows(ix', v', k, c.r)
  {
    forall j | c.r.i <= j < c.r.hi ensures SeesBlock(ix', v', k, BlockOf(j)) {
      assert SeesBlock(ix, v, k, BlockOf(j)) && Wants(c, BlockOf(j));
    }
  }

  /** Nothing that consumer c relies on in the index, the blocks or the history is taken away. */
  ghost predicate Leaves(ix: Index, blocks: seq<Mem>, v: History, ix': Index, blocks': seq<Mem>, v': History, c: Cons) {
    Extends(ix, v.iv, ix', v'.iv) && v.log <= v'.log && v.own <= v'.own && Undisturbed(blocks, v, blocks', v', c)
  }

  predicate Works(c: Cons) { c.Copy? || c.SetEmpty? || c.Unindex? }

  lemma ClaimStays(ix: Index, blocks: seq<Mem>, v: History, ix': Index, blocks': seq<Mem>, v': History, t: Tid, c: Cons)
    requires ConsOk(ix, blocks, v, t, c) && Leaves(ix, blocks, v, ix', blocks', v', c)
    ensures RangeOk(blocks', v', t, c.r) && (!c.Idle? && !c.LoadHeader? ==> Knows(ix', v', c.k, c.r))
  {
    RangeStays(blocks, v, blocks', v', t, c.r);
    if !c.Idle? && !c.LoadHeader? {
      forall j | c.r.i <= j < c.r.hi ensures BlockOf(j) in v.blk { assert HasElem(blocks, v, j); }
      KnowsStays(ix, v, ix', v', c.k, c);
    }
  }

  lemma WorkStays(ix: Index, blocks: seq<Mem>, v: History, ix': Index, blocks': seq<Mem>, v': History, t: Tid, c: Cons)
    requires ConsOk(ix, blocks, v, t, c) && Leaves(ix, blocks, v, ix', blocks', v', c) && Works(c)
    ensures ConsOk(ix', blocks', v', t, c)
  {
    ClaimStays(ix, blocks, v, ix', blocks', v', t, c);
    var q := if c.Unindex? then BlockOf(c.r.i - 1) else BlockOf(c.from);
    assert Wants(c, q);
    AtBlockStays(ix, v, ix', v', c.k, c.slot, c.b, q);
  }

  /** A consumer is undisturbed while the blocks it wants stay in use and its elements stay in place. */
  lemma ConsStays(ix: Index, blocks: seq<Mem>, v: History, ix': Index, blocks': seq<Mem>, v': History, t: Tid, c: Cons)
    requires ConsOk(ix, blocks, v, t, c) && Leaves(ix, blocks, v, ix', blocks', v', c)
    ensures ConsOk(ix', blocks', v', t, c)
  {
    if Works(c) {
      WorkStays(ix, blocks, v, ix', blocks', v', t, c);
    } else {
      ClaimStays(ix, blocks, v, ix', blocks', v', t, c);
    }
  }

  lemma AtBlockStays(ix: Index, v: History, ix': Index, v': History, k: nat, slot: nat, b: Block, q: nat)
    requires AtBlock(ix, v, k, slot, b, q) && Extends(ix, v.iv, ix', v'.iv) && SameBlock(v, v', q)
    ensures AtBlock(ix', v', k, slot, b, q)
  {
  }

  /** Replacing a consumer without changing its claim changes no sum. */
  lemma SameSum(cons: seq<Cons>, t: Tid, c: Cons, q: nat)
    requires t < |cons| && Lo(c) == Lo(cons[t]) && Hi(c) == Hi(cons[t])
    ensures Sum(cons[t := c], Overlap(q)) == Sum(cons, Overlap(q))
  {
    SumUpdate(cons, Overlap(q), t, c);
  }

  predicate NoPlace(c: Cons) { !c.Unindex? && !c.FreeBlock? }

  predicate SameDone(blocks: seq<Mem>, blocks': seq<Mem>) {
    |blocks'| == |blocks| && forall b :: 0 <= b < |blocks| ==> blocks'[b].done == blocks[b].done
  }

  lemma SameMapped(s: State, v: History, blocks': seq<Mem>, t: Tid, c: Cons)
    requires AllMapped(s.ix, s.blocks, s.cons, s.head, v) && SameDone(s.blocks, blocks')
    requires t < |s.cons| && Lo(c) == Lo(s.cons[t]) && Hi(c) == Hi(s.cons[t])
    ensures AllMapped(s.ix, blocks', s.cons[t := c], s.head, v)
  {
    var cons' := s.cons[t := c];
    forall q | q in v.blk ensures MappedOk(s.ix, blocks', cons', s.head, v, q) {
      assert MappedOk(s.ix, s.blocks, s.cons, s.head, v, q);
      SameSum(s.cons, t, c, q);
    }
  }

  lemma SamePlaced(s: State, v: History, t: Tid, c: Cons)
    requires AllPlaced(s.free, s.others, s.prod, s.cons, v) && t < |s.cons| && NoPlace(s.cons[t]) && NoPlace(c)
    ensures AllPlaced(s.free, s.others, s.prod, s.cons[t := c], v)
  {
    var cons' := s.cons[t := c];
    forall b | 0 <= b < |v.place| ensures PlaceOk(s.free, s.others, s.prod, cons', v, b) {
      assert PlaceOk(s.free, s.others, s.prod, s.cons, v, b);
    }
  }

  predicate SameNext(blocks: seq<Mem>, blocks': seq<Mem>) {
    |blocks'| == |blocks| && forall b :: 0 <= b < |blocks| ==> blocks'[b].next == blocks[b].next
  }

  predicate AllCells(blocks: seq<Mem>) { forall b :: 0 <= b < |blocks| ==> |blocks[b].cells| == BLOCK_SIZE }

  /** A step of a consumer that changes nothing else. */
  lemma ConsMoves(s: State, v: History, t: Tid, c: Cons)
    requires Body(s, v) && t < |s.cons| && NoPlace(s.cons[t]) && NoPlace(c)
    requires Lo(c) == Lo(s.cons[t]) && Hi(c) == Hi(s.cons[t]) && ConsOk(s.ix, s.blocks, v, t, c)
    ensures Body(s.(cons := s.cons[t := c]), v)
  {
    var cons' := s.cons[t := c];
    SameMapped(s, v, s.blocks, t, c);
    SamePlaced(s, v, t, c);
    forall u | 0 <= u < |cons'| ensures ConsOk(s.ix, s.blocks, v, u, cons'[u]) {
      assert u != t ==> ConsOk(s.ix, s.blocks, v, u, s.cons[u]);
    }
  }

  predicate LooksUp(c: Cons) { c.LoadHeader? || c.LoadTail? || c.LoadKey? || c.LoadValue? }

  /** get_block_index_index_for_index: the header and the tail may be old, the block is right. */
  lemma LookupOk(s: State, v: History, t: Tid, q: nat) returns (c: Cons)
    requires BlockIndex.Inv(s.ix, v.iv) && t < |s.cons| && LooksUp(s.cons[t]) && ConsOk(s.ix, s.blocks, v, t, s.cons[t])
    requires v.blk.Keys == v.iv.ent.Keys && q < v.iv.ins && q == BlockOf(s.cons[t].r.i) && q in v.blk
    requires v.iv.ent[q] < |s.ix.entries| && s.ix.entries[v.iv.ent[q]].value == At(v.blk[q])
    ensures Consume1(s, t) == s.(cons := s.cons[t := c])
    ensures ConsOk(s.ix, s.blocks, v, t, c) && NoPlace(c) && Lo(c) == Lo(s.cons[t]) && Hi(c) == Hi(s.cons[t])
  {
    var r := s.cons[t].r;
    c := Consume1(s, t).cons[t];
    match s.cons[t] {
      case LoadHeader(_) =>
        forall j | r.i <= j < r.hi ensures SeesBlock(s.ix, v, c.k, BlockOf(j)) {
          assert HasElem(s.blocks, v, j);
          CurSees(s.ix, v.iv, BlockOf(j));
        }
      case LoadTail(_, k) => TailIsKeyed(s.ix, v.iv, k, q);
      case LoadKey(_, k, tail) =>
        assert SeesBlock(s.ix, v, k, q);
        LookupIsRight(s.ix, v.iv, k, tail, q);
      case LoadValue(_, k, slot) =>
        assert SeesBlock(s.ix, v, k, q);
        TailIsKeyed(s.ix, v.iv, k, q);
        LookupIsRight(s.ix, v.iv, k, s.ix.headers[k].tail, q);
    }
  }

  lemma StepLookup(s: State, v: History, t: Tid)
    requires Inv(s, v) && t < |s.cons| && LooksUp(s.cons[t])
    ensures Inv(Consume1(s, t), v)
  {
    var r := s.cons[t].r;
    assert ConsOk(s.ix, s.blocks, v, t, s.cons[t]) && HasElem(s.blocks, v, r.i);
    assert MappedOk(s.ix, s.blocks, s.cons, s.head, v, BlockOf(r.i));
    var c := LookupOk(s, v, t, BlockOf(r.i));
    ConsMoves(s, v, t, c);
  }

  // ---------------------------------------------------------------------------------------------
  // Consumers at work
  // ---------------------------------------------------------------------------------------------

  /** Moving an element out touches only its own cell. */
  lemma CellEmptied(blocks: seq<Mem>, v: History, i: nat, j: nat)
    requires HasElem(blocks, v, i) && HasElem(blocks, v, j) && i != j
    requires BlockOf(i) != BlockOf(j) ==> v.blk[BlockOf(i)] != v.blk[BlockOf(j)]
    ensures var b := v.blk[BlockOf(i)];
      HasElem(blocks[b := blocks[b].(cells := blocks[b].cells[CellOf(i) := Empty])], v, j)
  {
  }

  lemma DistinctBlocks(s: State, v: History, p: nat, q: nat)
    requires AllMapped(s.ix, s.blocks, s.cons, s.head, v) && p in v.blk && q in v.blk && p != q
    ensures v.blk[p] != v.blk[q]
  {
    assert MappedOk(s.ix, s.blocks, s.cons, s.head, v, p) && MappedOk(s.ix, s.blocks, s.cons, s.head, v, q);
  }

  /** One element moves from its cell to the consumer. */
  function Emptied(blocks: seq<Mem>, b: Block, i: nat): seq<Mem>
    requires b < |blocks| && |blocks[b].cells| == BLOCK_SIZE
  {
    blocks[b := blocks[b].(cells := blocks[b].cells[CellOf(i) := Empty])]
  }

  lemma EmptiedKeeps(s: State, v: History, i: nat)
    requires AllMapped(s.ix, s.blocks, s.cons, s.head, v) && HasElem(s.blocks, v, i)
    ensures var blocks' := Emptied(s.blocks, v.blk[BlockOf(i)], i);
      && (forall j :: j != i && HasElem(s.blocks, v, j) ==> HasElem(blocks', v, j))
      && SameDone(s.blocks, blocks') && SameNext(s.blocks, blocks') && (AllCells(s.blocks) ==> AllCells(blocks'))
  {
    forall j | j != i && HasElem(s.blocks, v, j) ensures HasElem(Emptied(s.blocks, v.blk[BlockOf(i)], i), v, j) {
      if BlockOf(i) != BlockOf(j) { DistinctBlocks(s, v, BlockOf(i), BlockOf(j)); }
      CellEmptied(s.blocks, v, i, j);
    }
  }

  lemma CopyOk(s: State, v: History, t: Tid) returns (c: Cons)
    requires t < |s.cons| && s.cons[t].Copy? && s.cons[t].r.i < Stop(s.cons[t].from, s.cons[t].r.hi) && WellFormed(s.ix)
    requires ConsOk(s.ix, s.blocks, v, t, s.cons[t]) && AllMapped(s.ix, s.blocks, s.cons, s.head, v)
    ensures var i, b := s.cons[t].r.i, s.cons[t].b;
      && HasElem(s.blocks, v, i) && b == v.blk[BlockOf(i)]
      && Consume1(s, t) == s.(blocks := Emptied(s.blocks, b, i), cons := s.cons[t := c])
      && ConsOk(s.ix, Emptied(s.blocks, b, i), v, t, c)
    ensures Lo(c) == Lo(s.cons[t]) && Hi(c) == Hi(s.cons[t]) && NoPlace(c)
  {
    var i, b, r := s.cons[t].r.i, s.cons[t].b, s.cons[t].r;
    assert HasElem(s.blocks, v, i);
    assert BlockOf(i) == BlockOf(s.cons[t].from);
    EmptiedKeeps(s, v, i);
    assert v.log[r.first..i + 1] == v.log[r.first..i] + [v.log[i]];
    c := Consume1(s, t).cons[t];
  }

  /** Two consumers never claim the same element. */
  lemma ClaimsDiffer(ix: Index, blocks: seq<Mem>, v: History, cons: seq<Cons>, t: Tid, u: Tid, j: nat)
    requires AllCons(ix, blocks, v, cons) && t < |cons| && u < |cons|
    requires !cons[t].ConsFault? && !cons[u].ConsFault?
    requires cons[t].r.first <= j < cons[t].r.hi && cons[u].r.first <= j < cons[u].r.hi
    ensures t == u
  {
    assert ConsOk(ix, blocks, v, t, cons[t]) && ConsOk(ix, blocks, v, u, cons[u]);
    assert v.own[j] == t;
  }

  lemma CopiesOther(ix: Index, blocks: seq<Mem>, v: History, i: nat, blocks': seq<Mem>, u: Tid, c: Cons)
    requires ConsOk(ix, blocks, v, u, c) && !(c.r.first <= i < c.r.hi) && Shaped(ix, v.iv)
    requires forall j :: j != i && HasElem(blocks, v, j) ==> HasElem(blocks', v, j)
    requires forall q :: q in v.blk ==> q in v.iv.ent
    ensures ConsOk(ix, blocks', v, u, c)
  {
    ConsStays(ix, blocks, v, ix, blocks', v, u, c);
  }

  lemma CopyCons(ix: Index, blocks: seq<Mem>, v: History, cons: seq<Cons>, t: Tid, i: nat, blocks': seq<Mem>, c: Cons)
    requires AllCons(ix, blocks, v, cons) && t < |cons| && cons[t].Copy? && cons[t].r.first <= i < cons[t].r.hi
    requires forall j :: j != i && HasElem(blocks, v, j) ==> HasElem(blocks', v, j)
    requires ConsOk(ix, blocks', v, t, c) && Shaped(ix, v.iv) && forall q :: q in v.blk ==> q in v.iv.ent
    ensures AllCons(ix, blocks', v, cons[t := c])
  {
    var cons' := cons[t := c];
    forall u | 0 <= u < |cons| ensures ConsOk(ix, blocks', v, u, cons'[u]) {
      if u != t {
        assert ConsOk(ix, blocks, v, u, cons[u]);
        if cons[u].r.first <= i < cons[u].r.hi { ClaimsDiffer(ix, blocks, v, cons, t, u, i); }
        CopiesOther(ix, blocks, v, i, blocks', u, cons[u]);
      }
    }
  }

  lemma CopyKeepsBody(s: State, v: History, t: Tid, c: Cons, i: nat)
    requires Body(s, v) && t < |s.cons| && s.cons[t].Copy? && s.cons[t].r.first <= i < s.cons[t].r.hi <= s.head
    requires HasElem(s.blocks, v, i) && ConsOk(s.ix, Emptied(s.blocks, v.blk[BlockOf(i)], i), v, t, c)
    requires Lo(c) == Lo(s.cons[t]) && Hi(c) == Hi(s.cons[t]) && NoPlace(c)
    ensures Body(s.(blocks := Emptied(s.blocks, v.blk[BlockOf(i)], i), cons := s.cons[t := c]), v)
  {
    var blocks' := Emptied(s.blocks, v.blk[BlockOf(i)], i);
    EmptiedKeeps(s, v, i);
    SameMapped(s, v, blocks', t, c);
    SamePlaced(s, v, t, c);
    CopyCons(s.ix, s.blocks, v, s.cons, t, i, blocks', c);
    SameNextLinks(s.blocks, blocks', v, s.tail, From(s.prod, v));
    ProdStays(s.ix, s.blocks, v, s.ix, blocks', v, s.tail, s.tailBlock, s.prod);
  }

  lemma StepCopy(s: State, v: History, t: Tid)
    requires Inv(s, v) && t < |s.cons| && s.cons[t].Copy? && s.cons[t].r.i < Stop(s.cons[t].from, s.cons[t].r.hi)
    ensures Inv(Consume1(s, t), v)
  {
    assert ConsOk(s.ix, s.blocks, v, t, s.cons[t]);
    var c := CopyOk(s, v, t);
    CopyKeepsBody(s, v, t, c, s.cons[t].r.i);
  }

  lemma StepCopied(s: State, v: History, t: Tid)
    requires Inv(s, v) && t < |s.cons| && s.cons[t].Copy? && s.cons[t].r.i >= Stop(s.cons[t].from, s.cons[t].r.hi)
    ensures Inv(Consume1(s, t), v)
  {
    var c := s.cons[t];
    assert ConsOk(s.ix, s.blocks, v, t, c);
    ConsMoves(s, v, t, SetEmpty(c.r, c.k, c.slot, c.b, c.from));
  }

  /** The rest of a claim goes on in the next slot of the same header. */
  lemma NextBlockOk(s: State, v: History, t: Tid, r: Range, k: nat, slot: nat, q: nat)
    requires Shaped(s.ix, v.iv) && r.i > 0 && RangeOk(s.blocks, v, t, r) && Knows(s.ix, v, k, r)
    requires q == BlockOf(r.i - 1) && AtSlot(s.ix, v, k, slot, q) && (r.i == r.hi || CellOf(r.i) == 0)
    ensures ConsOk(s.ix, s.blocks, v, t, NextBlock(s, r, k, slot)) && NoPlace(NextBlock(s, r, k, slot))
    ensures Lo(NextBlock(s, r, k, slot)) == r.i && Hi(NextBlock(s, r, k, slot)) == r.hi
  {
    if r.i < r.hi {
      assert BlockOf(r.i) == q + 1;
      SlotShift(s.ix.headers[k], v.iv.shift[k], q);
    }
  }

  lemma OverlapsNonNegative(s: State, v: History, q: nat)
    requires AllCons(s.ix, s.blocks, v, s.cons)
    ensures forall t :: 0 <= t < |s.cons| ==> 0 <= Overlap(q)(s.cons[t]) <= Sum(s.cons, Overlap(q))
  {
    forall t | 0 <= t < |s.cons| ensures Overlap(q)(s.cons[t]) >= 0 { assert ConsOk(s.ix, s.blocks, v, t, s.cons[t]); }
    SumNonNegative(s.cons, Overlap(q));
  }

  /** A consumer that still has something to count in block q finds the block not yet empty. */
  lemma WantedNotFull(s: State, v: History, t: Tid, q: nat)
    requires AllCons(s.ix, s.blocks, v, s.cons) && AllMapped(s.ix, s.blocks, s.cons, s.head, v)
    requires t < |s.cons| && q in v.blk
    ensures MappedOk(s.ix, s.blocks, s.cons, s.head, v, q)
    ensures 0 <= Overlap(q)(s.cons[t]) && s.blocks[v.blk[q]].done + Overlap(q)(s.cons[t]) <= Clip(s.head, q)
  {
    assert MappedOk(s.ix, s.blocks, s.cons, s.head, v, q);
    OverlapsNonNegative(s, v, q);
  }

  /** The next pointers of the blocks of the call from number from on, and of the block at the tail. */
  predicate LinksStay(blocks: seq<Mem>, blocks': seq<Mem>, v: History, tail: nat, from: nat) {
    && |blocks'| == |blocks|
    && (forall i {:trigger LinkOk(blocks', v.pend, i)} :: from <= i < |v.pend| && LinkOk(blocks, v.pend, i) ==> LinkOk(blocks', v.pend, i))
    && (CellOf(tail) != 0 && Blocks(tail) - 1 in v.blk && v.blk[Blocks(tail) - 1] < |blocks| ==>
          blocks'[v.blk[Blocks(tail) - 1]].next == blocks[v.blk[Blocks(tail) - 1]].next)
  }

  /** The first block of the call whose next pointer the producer will still read. */
  function From(prod: Prod, v: History): nat { if prod.FreeChain? then v.w else if prod.Publish? then |v.pend| else 0 }

  lemma SameNextLinks(blocks: seq<Mem>, blocks': seq<Mem>, v: History, tail: nat, from: nat)
    requires SameNext(blocks, blocks')
    ensures LinksStay(blocks, blocks', v, tail, from)
  {
  }

  /** Consumers change nothing the producer relies on. */
  predicate ProducersPart(ix: Index, blocks: seq<Mem>, v: History, ix': Index, blocks': seq<Mem>, v': History, tail: nat, from: nat) {
    && Shaped(ix, v.iv) && Shaped(ix', v'.iv) && |ix'.entries| == |ix.entries| && LinksStay(blocks, blocks', v, tail, from)
    && v'.pend == v.pend && v'.w == v.w && v'.log == v.log
    && v'.iv.(ent := v.iv.ent) == v.iv && |v'.place| == |v.place|
    && (forall b :: 0 <= b < |v.place| ==> (v.place[b].Held? || v.place[b].Undone? ==> v'.place[b] == v.place[b]))
    && (forall b :: 0 <= b < |v.place| && b < |blocks| ==> (v.place[b].Held? ==> blocks'[b].done == blocks[b].done && blocks'[b].next == blocks[b].next))
    && (forall q :: q in v.blk && tail < BLOCK_SIZE * q + BLOCK_SIZE ==> q in v'.blk && v'.blk[q] == v.blk[q])
    && (forall q :: q in v'.blk ==> q in v.blk)
    && ix'.headers == ix.headers
    && (forall e :: 0 <= e < |ix.entries| ==> (Vacant(ix, e) ==> Vacant(ix', e)))
  }

  lemma BuiltStays(ix: Index, blocks: seq<Mem>, v: History, ix': Index, blocks': seq<Mem>, v': History, tail: nat, m: nat, from: nat)
    requires ProducersPart(ix, blocks, v, ix', blocks', v', tail, from)
    requires from <= m
    ensures Built(v.blk, v.pend, tail, m) ==> Built(v'.blk, v'.pend, tail, m)
    ensures Chain(blocks, v.pend, m) ==> Chain(blocks', v'.pend, m)
  {
    if Built(v.blk, v.pend, tail, m) {
      forall i | m <= i < |v.pend| ensures BuiltAt(v'.blk, v'.pend, tail, i) { assert BuiltAt(v.blk, v.pend, tail, i); }
    }
    if Chain(blocks, v.pend, m) {
      forall i | m <= i < |v.pend| ensures LinkOk(blocks', v.pend, i) { assert LinkOk(blocks, v.pend, i); }
    }
  }

  lemma UndoStays(ix: Index, blocks: seq<Mem>, v: History, ix': Index, blocks': seq<Mem>, v': History, tail: nat, a: nat, m: nat, from: nat)
    requires ProducersPart(ix, blocks, v, ix', blocks', v', tail, from)
    ensures AllUndone(v.place, v.pend, a, m) ==> AllUndone(v'.place, v'.pend, a, m)
    ensures Cleared(v.blk, tail, m) ==> Cleared(v'.blk, tail, m)
  {
    if AllUndone(v.place, v.pend, a, m) {
      forall i | a <= i < m ensures UndoneAt(v'.place, v'.pend, i) { assert UndoneAt(v.place, v.pend, i); }
    }
    if Cleared(v.blk, tail, m) {
      forall i | 0 <= i < m ensures ClearedAt(v'.blk, tail, i) { assert ClearedAt(v.blk, tail, i); }
    }
  }

  lemma BuildingStays(ix: Index, blocks: seq<Mem>, v: History, ix': Index, blocks': seq<Mem>, v': History, tail: nat, tailBlock: Ptr, c: Call)
    requires Building(blocks, tailBlock, v.blk, v.pend, tail, c) && ProducersPart(ix, blocks, v, ix', blocks', v', tail, 0)
    ensures Building(blocks', tailBlock, v'.blk, v'.pend, tail, c)
  {
    BuiltStays(ix, blocks, v, ix', blocks', v', tail, 0, 0);
  }

  predicate Builds(prod: Prod) {
    prod.Check? || prod.NeedIndex? || prod.StoreKey? || prod.StoreTail? || prod.GetBlock? || prod.StoreValue? || prod.DropTail? || prod.DropValue?
  }

  lemma ProdStaysBuilding(ix: Index, blocks: seq<Mem>, v: History, ix': Index, blocks': seq<Mem>, v': History, tail: nat, tailBlock: Ptr, prod: Prod)
    requires ProdOk(ix, blocks, tail, tailBlock, v, prod) && ProducersPart(ix, blocks, v, ix', blocks', v', tail, 0) && Builds(prod)
    ensures ProdOk(ix', blocks', tail, tailBlock, v', prod)
  {
    BuildingStays(ix, blocks, v, ix', blocks', v', tail, tailBlock, prod.c);
  }

  lemma ProdStaysUndoing(ix: Index, blocks: seq<Mem>, v: History, ix': Index, blocks': seq<Mem>, v': History, tail: nat, tailBlock: Ptr, prod: Prod)
    requires ProdOk(ix, blocks, tail, tailBlock, v, prod) && ProducersPart(ix, blocks, v, ix', blocks', v', tail, 0)
    requires prod.UndoValue? || prod.UndoTail?
    ensures ProdOk(ix', blocks', tail, tailBlock, v', prod)
  {
    var m := prod.q - Blocks(tail) + if prod.UndoTail? then 1 else 0;
    BuiltStays(ix, blocks, v, ix', blocks', v', tail, 0, 0);
    BuiltStays(ix, blocks, v, ix', blocks', v', tail, m, 0);
    UndoStays(ix, blocks, v, ix', blocks', v', tail, 0, m, 0);
  }

  lemma ProdStaysFreeing(ix: Index, blocks: seq<Mem>, v: History, ix': Index, blocks': seq<Mem>, v': History, tail: nat, tailBlock: Ptr, prod: Prod)
    requires ProdOk(ix, blocks, tail, tailBlock, v, prod) && ProducersPart(ix, blocks, v, ix', blocks', v', tail, v.w) && prod.FreeChain?
    ensures ProdOk(ix', blocks', tail, tailBlock, v', prod)
  {
    BuiltStays(ix, blocks, v, ix', blocks', v', tail, v.w, v.w);
    UndoStays(ix, blocks, v, ix', blocks', v', tail, v.w, |v.pend|, v.w);
  }

  lemma CallStays(ix: Index, blocks: seq<Mem>, v: History, ix': Index, blocks': seq<Mem>, v': History, tail: nat, c: Call)
    requires ProducersPart(ix, blocks, v, ix', blocks', v', tail, 0) && CallOk(v.blk, v.pend, tail, c) && StartLinked(blocks, v.pend, tail, c)
    ensures CallOk(v'.blk, v'.pend, tail, c) && StartLinked(blocks', v'.pend, tail, c)
  {
  }

  lemma WritingStays(ix: Index, blocks: seq<Mem>, v: History, ix': Index, blocks': seq<Mem>, v': History, tail: nat, tailBlock: Ptr, c: Call, i: nat, stop: nat)
    requires ProducersPart(ix, blocks, v, ix', blocks', v', tail, 0) && Writing(v, tail, tailBlock, c, i, stop)
    ensures Writing(v', tail, tailBlock, c, i, stop)
  {
  }

  lemma ProdStaysWriting(ix: Index, blocks: seq<Mem>, v: History, ix': Index, blocks': seq<Mem>, v': History, tail: nat, tailBlock: Ptr, prod: Prod)
    requires ProdOk(ix, blocks, tail, tailBlock, v, prod) && ProducersPart(ix, blocks, v, ix', blocks', v', tail, 0) && prod.Write?
    ensures ProdOk(ix', blocks', tail, tailBlock, v', prod)
  {
    BuiltStays(ix, blocks, v, ix', blocks', v', tail, 0, 0);
    CallStays(ix, blocks, v, ix', blocks', v', tail, prod.c);
    WritingStays(ix, blocks, v, ix', blocks', v', tail, tailBlock, prod.c, prod.i, prod.stop);
  }

  /** The producer is undisturbed while nobody takes out a block that reaches beyond tailIndex. */
  lemma ProdStays(ix: Index, blocks: seq<Mem>, v: History, ix': Index, blocks': seq<Mem>, v': History, tail: nat, tailBlock: Ptr, prod: Prod)
    requires ProdOk(ix, blocks, tail, tailBlock, v, prod) && ProducersPart(ix, blocks, v, ix', blocks', v', tail, From(prod, v))
    ensures ProdOk(ix', blocks', tail, tailBlock, v', prod)
  {
    if Builds(prod) {
      ProdStaysBuilding(ix, blocks, v, ix', blocks', v', tail, tailBlock, prod);
    } else if prod.FreeChain? {
      ProdStaysFreeing(ix, blocks, v, ix', blocks', v', tail, tailBlock, prod);
    } else if prod.UndoValue? || prod.UndoTail? {
      ProdStaysUndoing(ix, blocks, v, ix', blocks', v', tail, tailBlock, prod);
    } else if prod.Write? {
      ProdStaysWriting(ix, blocks, v, ix', blocks', v', tail, tailBlock, prod);
    }
  }

  // ---------------------------------------------------------------------------------------------
  // The end of a block
  // ---------------------------------------------------------------------------------------------

  function WithDone(blocks: seq<Mem>, b: Block, done: nat): seq<Mem>
    requires b < |blocks|
  { blocks[b := blocks[b].(done := done)] }

  /** fetch_add on elementsCompletelyDequeued: whoever brings it to BLOCK_SIZE takes the block out. */
  function CountedView(v: History, b: Block, done: nat, q: nat, t: Tid): History
    requires b < |v.place|
  {
    if done == BLOCK_SIZE then v.(place := v.place[b := Last(q, t)]) else v
  }

  /** The count never exceeds BLOCK_SIZE, and until the last fetch_add the block is still in use. */
  lemma SetEmptyBound(s: State, v: History, t: Tid, q: nat)
    requires AllCons(s.ix, s.blocks, v, s.cons) && AllMapped(s.ix, s.blocks, s.cons, s.head, v) && v.blk.Keys == v.iv.ent.Keys
    requires t < |s.cons| && s.cons[t].SetEmpty? && q == BlockOf(s.cons[t].from)
    ensures var b, n := s.cons[t].b, s.cons[t].r.i - s.cons[t].from;
      && q in v.blk && v.blk[q] == b && PlaceIs(v, b, Used(q)) && b < |s.blocks|
      && 0 < n && s.blocks[b].done + n <= BLOCK_SIZE
    ensures forall p :: Overlap(p)(s.cons[t]) - (Clip(s.cons[t].r.hi, p) - Clip(s.cons[t].r.i, p)) ==
                          if p == q then s.cons[t].r.i - s.cons[t].from else 0
  {
    assert ConsOk(s.ix, s.blocks, v, t, s.cons[t]);
    WantedNotFull(s, v, t, q);
  }

  lemma CountedRange(s: State, v: History, t: Tid, q: nat, done: nat)
    requires t < |s.cons| && s.cons[t].SetEmpty? && ConsOk(s.ix, s.blocks, v, t, s.cons[t])
    requires s.cons[t].b < |s.blocks| && s.cons[t].b < |v.place|
    ensures var c := s.cons[t]; var blocks', v' := WithDone(s.blocks, c.b, done), CountedView(v, c.b, done, q, t);
      RangeOk(blocks', v, t, c.r) && RangeOk(blocks', v', t, c.r) && Knows(s.ix, v', c.k, c.r)
  {
    var c := s.cons[t];
    var r, blocks', v' := c.r, WithDone(s.blocks, c.b, done), CountedView(v, c.b, done, q, t);
    forall j | r.i <= j < r.hi ensures HasElem(blocks', v', j) && HasElem(blocks', v, j) && SeesBlock(s.ix, v', c.k, BlockOf(j)) {
      assert HasElem(s.blocks, v, j) && SeesBlock(s.ix, v, c.k, BlockOf(j));
    }
  }

  lemma CountedCons(s: State, v: History, t: Tid, q: nat, done: nat)
    requires t < |s.cons| && s.cons[t].SetEmpty? && q == BlockOf(s.cons[t].from) && ConsOk(s.ix, s.blocks, v, t, s.cons[t])
    requires s.cons[t].b < |s.blocks| && s.cons[t].b < |v.place| && Shaped(s.ix, v.iv)
    ensures var c := s.cons[t];
      var c' := if done == BLOCK_SIZE then Unindex(c.r, c.k, c.slot, c.b) else NextBlock(s, c.r, c.k, c.slot);
      && ConsOk(s.ix, WithDone(s.blocks, c.b, done), CountedView(v, c.b, done, q, t), t, c')
      && Lo(c') == c.r.i && Hi(c') == c.r.hi && (done != BLOCK_SIZE ==> NoPlace(c'))
  {
    var c := s.cons[t];
    CountedRange(s, v, t, q, done);
    assert q == BlockOf(c.r.i - 1);
    if done != BLOCK_SIZE { NextBlockOk(s.(blocks := WithDone(s.blocks, c.b, done)), v, t, c.r, c.k, c.slot, q); }
  }

  lemma CountedMapped(s: State, v: History, t: Tid, q: nat, c: Cons, n: nat)
    requires AllMapped(s.ix, s.blocks, s.cons, s.head, v) && t < |s.cons| && q in v.blk
    requires v.blk[q] < |s.blocks| && PlaceIs(v, v.blk[q], Used(q)) && 0 < n && s.blocks[v.blk[q]].done + n <= BLOCK_SIZE
    requires Overlap(q)(c) == Overlap(q)(s.cons[t]) - n && forall p :: p != q ==> Overlap(p)(c) == Overlap(p)(s.cons[t])
    ensures var b := v.blk[q]; var done := s.blocks[b].done + n;
      AllMapped(s.ix, WithDone(s.blocks, b, done), s.cons[t := c], s.head, CountedView(v, b, done, q, t))
  {
    var b := v.blk[q];
    var done := s.blocks[b].done + n;
    var blocks', v', cons' := WithDone(s.blocks, b, done), CountedView(v, b, done, q, t), s.cons[t := c];
    forall p | p in v'.blk ensures MappedOk(s.ix, blocks', cons', s.head, v', p) {
      assert MappedOk(s.ix, s.blocks, s.cons, s.head, v, p) && MappedOk(s.ix, s.blocks, s.cons, s.head, v, q);
      SumUpdate(s.cons, Overlap(p), t, c);
    }
  }

  lemma CountedPlaced(s: State, v: History, t: Tid, q: nat, c: Cons, done: nat)
    requires AllPlaced(s.free, s.others, s.prod, s.cons, v) && t < |s.cons| && NoPlace(s.cons[t])
    requires q in v.blk && PlaceIs(v, v.blk[q], Used(q))
    requires if done == BLOCK_SIZE then c.Unindex? && c.b == v.blk[q] else NoPlace(c)
    ensures AllPlaced(s.free, s.others, s.prod, s.cons[t := c], CountedView(v, v.blk[q], done, q, t))
  {
    var cons', v' := s.cons[t := c], CountedView(v, v.blk[q], done, q, t);
    forall b | 0 <= b < |v.place| ensures PlaceOk(s.free, s.others, s.prod, cons', v', b) {
      assert PlaceOk(s.free, s.others, s.prod, s.cons, v, b);
    }
  }

  /** The other consumers, when one block changes its count or its place. */
  lemma OthersStay(s: State, v: History, ix': Index, blocks': seq<Mem>, v': History, t: Tid, cons': seq<Cons>)
    requires AllCons(s.ix, s.blocks, v, s.cons) && t < |s.cons| == |cons'| && cons' == s.cons[t := cons'[t]]
    requires ConsOk(ix', blocks', v', t, cons'[t])
    requires Extends(s.ix, v.iv, ix', v'.iv) && v.log <= v'.log && v.own <= v'.own
    requires forall u :: 0 <= u < |s.cons| && u != t ==> Undisturbed(s.blocks, v, blocks', v', s.cons[u])
    ensures AllCons(ix', blocks', v', cons')
  {
    forall u | 0 <= u < |cons'| ensures ConsOk(ix', blocks', v', u, cons'[u]) {
      if u != t {
        assert ConsOk(s.ix, s.blocks, v, u, s.cons[u]) && Undisturbed(s.blocks, v, blocks', v', s.cons[u]);
        ConsStays(s.ix, s.blocks, v, ix', blocks', v', u, s.cons[u]);
      }
    }
  }

  /** What consumer c relies on stays. */
  ghost predicate Undisturbed(blocks: seq<Mem>, v: History, blocks': seq<Mem>, v': History, c: Cons) {
    && !c.ConsFault?
    && (forall q :: q in v.blk && Wants(c, q) ==> SameBlock(v, v', q))
    && (forall j :: c.r.i <= j < c.r.hi && HasElem(blocks, v, j) ==> HasElem(blocks', v', j))
    && (c.Unindex? || c.FreeBlock? ==> c.b < |v'.place| && c.b < |v.place| && v'.place[c.b] == v.place[c.b])
  }

  lemma CountedOthers(s: State, v: History, t: Tid, q: nat, done: nat)
    requires Shaped(s.ix, v.iv) && AllCons(s.ix, s.blocks, v, s.cons) && v.blk.Keys == v.iv.ent.Keys
    requires q in v.blk && v.blk[q] < |s.blocks| && PlaceIs(v, v.blk[q], Used(q))
    ensures forall u :: 0 <= u < |s.cons| && u != t ==>
      Undisturbed(s.blocks, v, WithDone(s.blocks, v.blk[q], done), CountedView(v, v.blk[q], done, q, t), s.cons[u])
  {
    var blocks', v' := WithDone(s.blocks, v.blk[q], done), CountedView(v, v.blk[q], done, q, t);
    forall u | 0 <= u < |s.cons| && u != t ensures Undisturbed(s.blocks, v, blocks', v', s.cons[u]) {
      assert ConsOk(s.ix, s.blocks, v, u, s.cons[u]);
      forall j | HasElem(s.blocks, v, j) ensures HasElem(blocks', v', j) {}
    }
  }

  lemma CountedProd(s: State, v: History, t: Tid, q: nat, done: nat)
    requires Shaped(s.ix, v.iv) && ProdOk(s.ix, s.blocks, s.tail, s.tailBlock, v, s.prod) && |v.place| == |s.blocks|
    requires q in v.blk && v.blk[q] < |s.blocks| && PlaceIs(v, v.blk[q], Used(q))
    ensures var b := v.blk[q];
      ProdOk(s.ix, WithDone(s.blocks, b, done), s.tail, s.tailBlock, CountedView(v, b, done, q, t), s.prod)
  {
    var blocks', v' := WithDone(s.blocks, v.blk[q], done), CountedView(v, v.blk[q], done, q, t);
    SameNextLinks(s.blocks, blocks', v, s.tail, From(s.prod, v));
    ProdStays(s.ix, s.blocks, v, s.ix, blocks', v', s.tail, s.tailBlock, s.prod);
  }

  lemma CountedAllCons(s: State, v: History, t: Tid, q: nat, done: nat, c: Cons)
    requires Shaped(s.ix, v.iv) && AllCons(s.ix, s.blocks, v, s.cons) && v.blk.Keys == v.iv.ent.Keys && t < |s.cons|
    requires q in v.blk && v.blk[q] < |s.blocks| && PlaceIs(v, v.blk[q], Used(q))
    requires ConsOk(s.ix, WithDone(s.blocks, v.blk[q], done), CountedView(v, v.blk[q], done, q, t), t, c)
    ensures AllCons(s.ix, WithDone(s.blocks, v.blk[q], done), CountedView(v, v.blk[q], done, q, t), s.cons[t := c])
  {
    CountedOthers(s, v, t, q, done);
    OthersStay(s, v, s.ix, WithDone(s.blocks, v.blk[q], done), CountedView(v, v.blk[q], done, q, t), t, s.cons[t := c]);
  }

  lemma CountedRest(s: State, v: History, t: Tid, q: nat, done: nat, c: Cons)
    requires Numbers(s, v) && Below(s.tail, v) && AllLive(s.blocks, s.head, v) && q in v.blk && v.blk[q] < |s.blocks| && t < |s.cons|
    ensures var blocks', v' := WithDone(s.blocks, v.blk[q], done), CountedView(v, v.blk[q], done, q, t);
      Numbers(s.(blocks := blocks', cons := s.cons[t := c]), v') && Below(s.tail, v') && AllLive(blocks', s.head, v')
  {
    var blocks', v' := WithDone(s.blocks, v.blk[q], done), CountedView(v, v.blk[q], done, q, t);
    forall j | s.head <= j < |v.log| ensures HasElem(blocks', v', j) { assert HasElem(s.blocks, v, j); }
  }

  lemma CountedKeepsBody(s: State, v: History, t: Tid, q: nat, c: Cons, n: nat, done: nat)
    requires Body(s, v) && t < |s.cons| && s.cons[t].SetEmpty? && q in v.blk
    requires v.blk[q] < |s.blocks| && PlaceIs(v, v.blk[q], Used(q)) && 0 < n && done == s.blocks[v.blk[q]].done + n <= BLOCK_SIZE
    requires Overlap(q)(c) == Overlap(q)(s.cons[t]) - n && forall p :: p != q ==> Overlap(p)(c) == Overlap(p)(s.cons[t])
    requires if done == BLOCK_SIZE then c.Unindex? && c.b == v.blk[q] else NoPlace(c)
    requires ConsOk(s.ix, WithDone(s.blocks, v.blk[q], done), CountedView(v, v.blk[q], done, q, t), t, c)
    ensures Body(s.(blocks := WithDone(s.blocks, v.blk[q], done), cons := s.cons[t := c]), CountedView(v, v.blk[q], done, q, t))
  {
    CountedMapped(s, v, t, q, c, n);
    CountedPlaced(s, v, t, q, c, done);
    CountedAllCons(s, v, t, q, done, c);
    CountedProd(s, v, t, q, done);
    CountedRest(s, v, t, q, done, c);
  }

  lemma SetEmptyShape(s: State, t: Tid, c': Cons, done: nat)
    requires t < |s.cons| && s.cons[t].SetEmpty? && WellFormed(s.ix) && s.cons[t].b < |s.blocks|
    requires s.cons[t].from <= s.cons[t].r.i && done == s.blocks[s.cons[t].b].done + (s.cons[t].r.i - s.cons[t].from) <= BLOCK_SIZE
    requires var c := s.cons[t];
      c' == if done == BLOCK_SIZE then Unindex(c.r, c.k, c.slot, c.b) else NextBlock(s, c.r, c.k, c.slot)
    ensures Consume1(s, t) == s.(blocks := WithDone(s.blocks, s.cons[t].b, done), cons := s.cons[t := c'])
  {
  }

  lemma StepSetEmpty(s: State, v: History, t: Tid) returns (v': History)
    requires Body(s, v) && t < |s.cons| && s.cons[t].SetEmpty?
    ensures Body(Consume1(s, t), v') && Consume1(s, t).ix == s.ix && v'.iv == v.iv && v'.log == v.log
  {
    var c := s.cons[t];
    var q, n := BlockOf(c.from), c.r.i - c.from;
    assert ConsOk(s.ix, s.blocks, v, t, c);
    SetEmptyBound(s, v, t, q);
    var done := s.blocks[c.b].done + n;
    var c' := if done == BLOCK_SIZE then Unindex(c.r, c.k, c.slot, c.b) else NextBlock(s, c.r, c.k, c.slot);
    v' := CountedView(v, c.b, done, q, t);
    CountedCons(s, v, t, q, done);
    CountedKeepsBody(s, v, t, q, c', n, done);
    SetEmptyShape(s, t, c', done);
  }

  /** idxEntry->value.store(nullptr): block number q goes out of use, and t holds its block. */
  function UnindexedView(v: History, e: EntryId, q: nat, b: Block, p: Place): History
    requires b < |v.place|
  {
    v.(iv := ValueView(v.iv, e, q, Null), blk := v.blk - {q}, place := v.place[b := p])
  }

  /** When the count is full, every element of the block has been claimed and counted. */
  lemma FullMeansDone(s: State, v: History, q: nat)
    requires AllCons(s.ix, s.blocks, v, s.cons) && Mapped(s, v, q) && s.blocks[v.blk[q]].done == BLOCK_SIZE
    ensures BLOCK_SIZE * q + BLOCK_SIZE <= s.head
    ensures forall t :: 0 <= t < |s.cons| ==> Overlap(q)(s.cons[t]) == 0
  {
    OverlapsNonNegative(s, v, q);
    if |s.cons| > 0 { assert Overlap(q)(s.cons[0]) >= 0; } else { SumZero(s.cons, Overlap(q)); }
  }

  ghost predicate Mapped(s: State, v: History, q: nat) { q in v.blk && MappedOk(s.ix, s.blocks, s.cons, s.head, v, q) }

  lemma UnindexedOthers(s: State, v: History, t: Tid, q: nat)
    requires AllCons(s.ix, s.blocks, v, s.cons) && Mapped(s, v, q) && v.blk.Keys == v.iv.ent.Keys
    requires PlaceIs(v, v.blk[q], Last(q, t)) && t < |s.cons|
    ensures forall u :: 0 <= u < |s.cons| && u != t ==>
      Undisturbed(s.blocks, v, s.blocks, UnindexedView(v, v.iv.ent[q], q, v.blk[q], Freeing(t)), s.cons[u])
  {
    FullMeansDone(s, v, q);
    var v' := UnindexedView(v, v.iv.ent[q], q, v.blk[q], Freeing(t));
    forall u | 0 <= u < |s.cons| && u != t ensures Undisturbed(s.blocks, v, s.blocks, v', s.cons[u]) {
      var c := s.cons[u];
      assert ConsOk(s.ix, s.blocks, v, u, c) && Overlap(q)(c) == 0;
      forall j | c.r.i <= j < c.r.hi && HasElem(s.blocks, v, j) ensures HasElem(s.blocks, v', j) {}
    }
  }

  lemma UnindexedRange(s: State, v: History, t: Tid, q: nat, k: nat, r: Range, b: Block, ix': Index)
    requires RangeOk(s.blocks, v, t, r) && Knows(s.ix, v, k, r) && b < |v.place| && v.blk.Keys == v.iv.ent.Keys
    requires q in v.blk && (r.i < r.hi ==> BLOCK_SIZE * q + BLOCK_SIZE <= r.i) && v.iv.ent[q] < |s.ix.entries| && ix' == SetValue(s.ix, v.iv.ent[q], Null)
    ensures var v' := UnindexedView(v, v.iv.ent[q], q, b, Freeing(t)); RangeOk(s.blocks, v', t, r) && Knows(ix', v', k, r)
  {
    var v' := UnindexedView(v, v.iv.ent[q], q, b, Freeing(t));
    forall j | r.i <= j < r.hi ensures HasElem(s.blocks, v', j) && SeesBlock(ix', v', k, BlockOf(j)) {
      assert HasElem(s.blocks, v, j) && SeesBlock(s.ix, v, k, BlockOf(j));
    }
  }

  lemma UnindexedCons(s: State, v: History, t: Tid, q: nat, ix': Index)
    requires t < |s.cons| && s.cons[t].Unindex? && ConsOk(s.ix, s.blocks, v, t, s.cons[t])
    requires Mapped(s, v, q) && q == BlockOf(s.cons[t].r.i - 1) && v.blk.Keys == v.iv.ent.Keys
    requires ix' == SetValue(s.ix, v.iv.ent[q], Null)
    ensures var c := s.cons[t];
      ConsOk(ix', s.blocks, UnindexedView(v, v.iv.ent[q], q, c.b, Freeing(t)), t, FreeBlock(c.r, c.k, c.slot, c.b))
  {
    var c := s.cons[t];
    EndOfBlock(c.r.i, q);
    UnindexedRange(s, v, t, q, c.k, c.r, c.b, ix');
  }

  lemma EndOfBlock(i: nat, q: nat)
    requires i > 0 && q == BlockOf(i - 1)
    ensures CellOf(i) == 0 ==> BLOCK_SIZE * q + BLOCK_SIZE == i
  {
  }

  lemma UnindexedMapped(s: State, v: History, q: nat, p: Place)
    requires AllMapped(s.ix, s.blocks, s.cons, s.head, v) && q in v.blk && Mapped(s, v, q) && BlockIndex.Inv(s.ix, v.iv)
    ensures AllMapped(SetValue(s.ix, v.iv.ent[q], Null), s.blocks, s.cons, s.head, UnindexedView(v, v.iv.ent[q], q, v.blk[q], p))
  {
    var ix', v' := SetValue(s.ix, v.iv.ent[q], Null), UnindexedView(v, v.iv.ent[q], q, v.blk[q], p);
    forall p | p in v'.blk ensures MappedOk(ix', s.blocks, s.cons, s.head, v', p) {
      assert MappedOk(s.ix, s.blocks, s.cons, s.head, v, p);
      assert BlockIndex.InUse(s.ix, v.iv, p) && BlockIndex.InUse(s.ix, v.iv, q) && Keyed(s.ix, v.iv, p) && Keyed(s.ix, v.iv, q);
    }
  }

  lemma UnindexedPlaced(s: State, v: History, t: Tid, q: nat, e: EntryId, c: Cons)
    requires AllPlaced(s.free, s.others, s.prod, s.cons, v) && t < |s.cons| && s.cons[t].Unindex?
    requires q in v.blk && PlaceIs(v, v.blk[q], Last(q, t)) && c.FreeBlock? && c.b == v.blk[q]
    ensures AllPlaced(s.free, s.others, s.prod, s.cons[t := c], UnindexedView(v, e, q, v.blk[q], Freeing(t)))
  {
    var cons', v' := s.cons[t := c], UnindexedView(v, e, q, v.blk[q], Freeing(t));
    assert PlaceOk(s.free, s.others, s.prod, s.cons, v, v.blk[q]);
    forall b | 0 <= b < |v.place| ensures PlaceOk(s.free, s.others, s.prod, cons', v', b) {
      assert PlaceOk(s.free, s.others, s.prod, s.cons, v, b);
    }
  }

  lemma UnindexedIndex(s: State, v: History, q: nat, b: Block, p: Place)
    requires Inv(s, v) && Mapped(s, v, q) && b < |v.place|
    ensures var ix', v' := SetValue(s.ix, v.iv.ent[q], Null), UnindexedView(v, v.iv.ent[q], q, b, p);
      BlockIndex.Inv(ix', v'.iv) && v'.iv == v.iv.(ent := v.iv.ent - {q})
  {
    assert InUse(s.ix, v.iv, q);
    StoreValueKeepsInv(s.ix, v.iv, v.iv.ent[q], q, Null);
  }

  lemma UnindexedProd(s: State, v: History, t: Tid, q: nat)
    requires Shaped(s.ix, v.iv) && Numbers(s, v) && ProdOk(s.ix, s.blocks, s.tail, s.tailBlock, v, s.prod)
    requires Mapped(s, v, q) && PlaceIs(v, v.blk[q], Last(q, t)) && v.iv.ent[q] !in v.iv.open
    requires BLOCK_SIZE * q + BLOCK_SIZE <= s.head && v.iv.open - {v.iv.ent[q]} == v.iv.open
    ensures ProdOk(SetValue(s.ix, v.iv.ent[q], Null), s.blocks, s.tail, s.tailBlock,
                   UnindexedView(v, v.iv.ent[q], q, v.blk[q], Freeing(t)), s.prod)
  {
    var ix', v' := SetValue(s.ix, v.iv.ent[q], Null), UnindexedView(v, v.iv.ent[q], q, v.blk[q], Freeing(t));
    SameNextLinks(s.blocks, s.blocks, v, s.tail, From(s.prod, v));
    ProdStays(s.ix, s.blocks, v, ix', s.blocks, v', s.tail, s.tailBlock, s.prod);
  }

  lemma UnindexedRest(s: State, v: History, t: Tid, q: nat, c: Cons)
    requires Numbers(s, v) && Below(s.tail, v) && AllLive(s.blocks, s.head, v) && Mapped(s, v, q) && t < |s.cons|
    requires BLOCK_SIZE * q + BLOCK_SIZE <= s.head && Shaped(s.ix, v.iv)
    ensures var ix', v' := SetValue(s.ix, v.iv.ent[q], Null), UnindexedView(v, v.iv.ent[q], q, v.blk[q], Freeing(t));
      Numbers(s.(ix := ix', cons := s.cons[t := c]), v') && Below(s.tail, v') && AllLive(s.blocks, s.head, v')
      && Shaped(ix', v'.iv) && Extends(s.ix, v.iv, ix', v'.iv)
  {
    var v' := UnindexedView(v, v.iv.ent[q], q, v.blk[q], Freeing(t));
    forall j | s.head <= j < |v.log| ensures HasElem(s.blocks, v', j) { assert HasElem(s.blocks, v, j); }
  }

  lemma UnindexedKeepsInv(s: State, v: History, t: Tid, q: nat, c: Cons)
    requires Inv(s, v) && t < |s.cons| && s.cons[t].Unindex? && s.cons[t].r.i > 0 && q == BlockOf(s.cons[t].r.i - 1)
    requires Mapped(s, v, q) && v.blk[q] == s.cons[t].b && PlaceIs(v, v.blk[q], Last(q, t))
    requires c == FreeBlock(s.cons[t].r, s.cons[t].k, s.cons[t].slot, s.cons[t].b)
    ensures Inv(s.(ix := SetValue(s.ix, v.iv.ent[q], Null), cons := s.cons[t := c]),
                UnindexedView(v, v.iv.ent[q], q, v.blk[q], Freeing(t)))
  {
    var ix', v' := SetValue(s.ix, v.iv.ent[q], Null), UnindexedView(v, v.iv.ent[q], q, v.blk[q], Freeing(t));
    FullMeansDone(s, v, q);
    assert InUse(s.ix, v.iv, q);
    UnindexedIndex(s, v, q, v.blk[q], Freeing(t));
    assert ConsOk(s.ix, s.blocks, v, t, s.cons[t]);
    UnindexedCons(s, v, t, q, ix');
    UnindexedRest(s, v, t, q, c);
    UnindexedMapped(s, v, q, Freeing(t));
    SameMapped(s.(ix := ix'), v', s.blocks, t, c);
    UnindexedPlaced(s, v, t, q, v.iv.ent[q], c);
    UnindexedProd(s, v, t, q);
    UnindexedOthers(s, v, t, q);
    OthersStay(s, v, ix', s.blocks, v', t, s.cons[t := c]);
  }

  lemma StepUnindex(s: State, v: History, t: Tid) returns (v': History)
    requires Inv(s, v) && t < |s.cons| && s.cons[t].Unindex?
    ensures Inv(Consume1(s, t), v') && v'.log == v.log
  {
    var c := s.cons[t];
    assert ConsOk(s.ix, s.blocks, v, t, c);
    var q := BlockOf(c.r.i - 1);
    assert MappedOk(s.ix, s.blocks, s.cons, s.head, v, q);
    UnindexedKeepsInv(s, v, t, q, FreeBlock(c.r, c.k, c.slot, c.b));
    v' := UnindexedView(v, v.iv.ent[q], q, v.blk[q], Freeing(t));
  }

  function PlacedView(v: History, b: Block, p: Place): History
    requires b < |v.place|
  { v.(place := v.place[b := p]) }

  predicate Outside(p: Place) { !p.Used? && !p.Last? }

  /** A block outside the index changes hands, or its contents change. */
  lemma OutsideMapped(s: State, v: History, b: Block, p: Place, blocks': seq<Mem>)
    requires AllMapped(s.ix, s.blocks, s.cons, s.head, v) && b < |v.place| == |s.blocks| && Outside(v.place[b])
    requires |blocks'| == |s.blocks| && blocks' == s.blocks[b := blocks'[b]]
    ensures AllMapped(s.ix, blocks', s.cons, s.head, PlacedView(v, b, p))
    ensures forall j :: HasElem(s.blocks, v, j) ==> HasElem(blocks', PlacedView(v, b, p), j)
  {
    var v' := PlacedView(v, b, p);
    forall q | q in v.blk ensures MappedOk(s.ix, blocks', s.cons, s.head, v', q) {
      assert MappedOk(s.ix, s.blocks, s.cons, s.head, v, q);
    }
    forall j | HasElem(s.blocks, v, j) ensures HasElem(blocks', v', j) {
      assert MappedOk(s.ix, s.blocks, s.cons, s.head, v, BlockOf(j));
    }
  }

  /** The consumers that do not hold the block themselves. */
  lemma OutsideCons(s: State, v: History, b: Block, p: Place, blocks': seq<Mem>, t: Tid)
    requires AllCons(s.ix, s.blocks, v, s.cons) && b < |v.place| == |s.blocks| && Outside(v.place[b]) && Shaped(s.ix, v.iv)
    requires (v.place[b].Freeing? ==> v.place[b].t == t) && v.blk.Keys == v.iv.ent.Keys
    requires forall j :: HasElem(s.blocks, v, j) ==> HasElem(blocks', PlacedView(v, b, p), j)
    ensures forall u :: 0 <= u < |s.cons| && u != t ==> Undisturbed(s.blocks, v, blocks', PlacedView(v, b, p), s.cons[u])
    ensures Extends(s.ix, v.iv, s.ix, PlacedView(v, b, p).iv)
  {
    forall u | 0 <= u < |s.cons| && u != t ensures Undisturbed(s.blocks, v, blocks', PlacedView(v, b, p), s.cons[u]) {
      assert ConsOk(s.ix, s.blocks, v, u, s.cons[u]);
    }
  }

  lemma OutsideAllCons(s: State, v: History, b: Block, p: Place, blocks': seq<Mem>)
    requires AllCons(s.ix, s.blocks, v, s.cons) && b < |v.place| == |s.blocks| && Outside(v.place[b]) && Shaped(s.ix, v.iv)
    requires !v.place[b].Freeing? && v.blk.Keys == v.iv.ent.Keys
    requires forall j :: HasElem(s.blocks, v, j) ==> HasElem(blocks', PlacedView(v, b, p), j)
    ensures AllCons(s.ix, blocks', PlacedView(v, b, p), s.cons)
  {
    var v' := PlacedView(v, b, p);
    OutsideCons(s, v, b, p, blocks', |s.cons|);
    forall u | 0 <= u < |s.cons| ensures ConsOk(s.ix, blocks', v', u, s.cons[u]) {
      assert ConsOk(s.ix, s.blocks, v, u, s.cons[u]) && Undisturbed(s.blocks, v, blocks', v', s.cons[u]);
      ConsStays(s.ix, s.blocks, v, s.ix, blocks', v', u, s.cons[u]);
    }
  }

  lemma OutsideProd(s: State, v: History, b: Block, p: Place, blocks': seq<Mem>)
    requires ProdOk(s.ix, s.blocks, s.tail, s.tailBlock, v, s.prod) && b < |v.place| == |s.blocks| && Shaped(s.ix, v.iv)
    requires v.place[b].Free? || v.place[b].Others? || v.place[b].Freeing?
    requires LinksStay(s.blocks, blocks', v, s.tail, From(s.prod, v))
    requires blocks' == s.blocks[b := blocks'[b]]
    ensures ProdOk(s.ix, blocks', s.tail, s.tailBlock, PlacedView(v, b, p), s.prod)
  {
    ProdStays(s.ix, s.blocks, v, s.ix, blocks', PlacedView(v, b, p), s.tail, s.tailBlock, s.prod);
  }

  // ---------------------------------------------------------------------------------------------
  // Blocks that are free, held by other producers, or being freed
  // ---------------------------------------------------------------------------------------------

  lemma StepFreeBlock(s: State, v: History, t: Tid) returns (v': History)
    requires Body(s, v) && t < |s.cons| && s.cons[t].FreeBlock?
    ensures Body(Consume1(s, t), v') && Consume1(s, t).ix == s.ix && v'.iv == v.iv && v'.log == v.log
  {
    var c, b := s.cons[t], s.cons[t].b;
    assert ConsOk(s.ix, s.blocks, v, t, c);
    var c' := NextBlock(s, c.r, c.k, c.slot);
    v' := PlacedView(v, b, Free);
    NextBlockOk(s, v, t, c.r, c.k, c.slot, BlockOf(c.r.i - 1));
    FreeBlockKeepsBody(s, v, t, c');
  }

  lemma FreeBlockKeepsBody(s: State, v: History, t: Tid, c': Cons)
    requires Body(s, v) && t < |s.cons| && s.cons[t].FreeBlock? && PlaceIs(v, s.cons[t].b, Freeing(t))
    requires ConsOk(s.ix, s.blocks, v, t, c') && NoPlace(c') && Lo(c') == Lo(s.cons[t]) && Hi(c') == Hi(s.cons[t])
    ensures Body(s.(free := s.free + {s.cons[t].b}, cons := s.cons[t := c']), PlacedView(v, s.cons[t].b, Free))
  {
    var b := s.cons[t].b;
    var cons', v' := s.cons[t := c'], PlacedView(v, b, Free);
    OutsideMapped(s, v, b, Free, s.blocks);
    SameMapped(s, v', s.blocks, t, c');
    OutsideCons(s, v, b, Free, s.blocks, t);
    ConsStays(s.ix, s.blocks, v, s.ix, s.blocks, v', t, c');
    OthersStay(s, v, s.ix, s.blocks, v', t, cons');
    SameNextLinks(s.blocks, s.blocks, v, s.tail, From(s.prod, v));
    OutsideProd(s, v, b, Free, s.blocks);
    forall a | 0 <= a < |v'.place| ensures PlaceOk(s.free + {b}, s.others, s.prod, cons', v', a) {
      assert PlaceOk(s.free, s.others, s.prod, s.cons, v, a);
    }
  }

  /** The blocks of the call, and the block at the tail, are not with other producers. */
  lemma OthersLinks(s: State, v: History, b: Block, blocks': seq<Mem>)
    requires AllMapped(s.ix, s.blocks, s.cons, s.head, v) && ProdOk(s.ix, s.blocks, s.tail, s.tailBlock, v, s.prod)
    requires b < |v.place| == |s.blocks| == |blocks'| && v.place[b].Others? && blocks' == s.blocks[b := blocks'[b]]
    ensures LinksStay(s.blocks, blocks', v, s.tail, From(s.prod, v))
  {
    if CellOf(s.tail) != 0 && Blocks(s.tail) - 1 in v.blk {
      assert MappedOk(s.ix, s.blocks, s.cons, s.head, v, Blocks(s.tail) - 1);
    }
    var from := From(s.prod, v);
    forall i | from <= i < |v.pend| && LinkOk(s.blocks, v.pend, i) ensures LinkOk(blocks', v.pend, i) {
      if BuiltAt(v.blk, v.pend, s.tail, i) {
        assert MappedOk(s.ix, s.blocks, s.cons, s.head, v, Blocks(s.tail) + i);
      } else {
        assert UndoneAt(v.place, v.pend, i);
      }
    }
  }

  predicate Elsewhere(p: Place) { p.Free? || p.Others? }

  /** Other producers take, return and write blocks. */
  lemma OthersKeepBody(s: State, v: History, b: Block, p: Place, blocks': seq<Mem>, free': set<Block>, others': set<Block>)
    requires Body(s, v) && b < |s.blocks| && Elsewhere(v.place[b]) && Elsewhere(p)
    requires |blocks'| == |s.blocks| && blocks' == s.blocks[b := blocks'[b]] && |blocks'[b].cells| == BLOCK_SIZE
    requires v.place[b].Free? ==> blocks' == s.blocks
    requires free' == (if p.Free? then s.free + {b} else s.free - {b}) && others' == if p.Others? then s.others + {b} else s.others - {b}
    ensures Body(s.(blocks := blocks', free := free', others := others'), PlacedView(v, b, p))
  {
    var v' := PlacedView(v, b, p);
    OutsideMapped(s, v, b, p, blocks');
    if v.place[b].Others? { OthersLinks(s, v, b, blocks'); } else { SameNextLinks(s.blocks, blocks', v, s.tail, From(s.prod, v)); }
    OutsideProd(s, v, b, p, blocks');
    OutsideAllCons(s, v, b, p, blocks');
    forall a | 0 <= a < |v'.place| ensures PlaceOk(free', others', s.prod, s.cons, v', a) {
      assert PlaceOk(s.free, s.others, s.prod, s.cons, v, a);
    }
  }

  lemma StepOthers(s: State, v: History, op: Op) returns (v': History)
    requires Body(s, v) && Enabled(s, op) && (op.OtherTakes? || op.OtherGives? || op.OtherWrites?)
    ensures Body(Next(s, op), v') && Next(s, op).ix == s.ix && v'.iv == v.iv && v'.log == v.log
  {
    var b := op.b;
    assert PlaceOk(s.free, s.others, s.prod, s.cons, v, b);
    var p := if op.OtherGives? then Free else Others;
    v' := PlacedView(v, b, p);
    match op {
      case OtherTakes(_) => OthersKeepBody(s, v, b, p, s.blocks, s.free - {b}, s.others + {b});
      case OtherGives(_) => OthersKeepBody(s, v, b, p, s.blocks, s.free + {b}, s.others - {b});
      case OtherWrites(_, m) =>
        OthersKeepBody(s, v, b, p, s.blocks[b := m], s.free - {b}, s.others + {b});
        assert s.free - {b} == s.free && s.others + {b} == s.others;
    }
  }

  // ---------------------------------------------------------------------------------------------
  // Claims
  // ---------------------------------------------------------------------------------------------

  function ClaimedView(v: History, t: Tid, n: nat): History { v.(own := v.own + seq(n, _ => t)) }

  function Claimed(s: State, n: nat): Cons { LoadHeader(Range(s.head, s.head, s.head + n, [])) }

  lemma ClaimMapped(s: State, v: History, t: Tid, n: nat)
    requires AllMapped(s.ix, s.blocks, s.cons, s.head, v) && t < |s.cons| && s.cons[t].Idle? && s.cons[t].r.i == s.cons[t].r.hi
    ensures AllMapped(s.ix, s.blocks, s.cons[t := Claimed(s, n)], s.head + n, ClaimedView(v, t, n))
  {
    var cons', v' := s.cons[t := Claimed(s, n)], ClaimedView(v, t, n);
    forall q | q in v'.blk ensures MappedOk(s.ix, s.blocks, cons', s.head + n, v', q) {
      assert MappedOk(s.ix, s.blocks, s.cons, s.head, v, q);
      SumUpdate(s.cons, Overlap(q), t, Claimed(s, n));
    }
  }

  lemma ClaimPlaced(s: State, v: History, t: Tid, n: nat)
    requires AllPlaced(s.free, s.others, s.prod, s.cons, v) && t < |s.cons| && NoPlace(s.cons[t])
    ensures AllPlaced(s.free, s.others, s.prod, s.cons[t := Claimed(s, n)], ClaimedView(v, t, n))
  {
    var v', cons' := ClaimedView(v, t, n), s.cons[t := Claimed(s, n)];
    SamePlaced(s, v, t, Claimed(s, n));
    forall a | 0 <= a < |v'.place| ensures PlaceOk(s.free, s.others, s.prod, cons', v', a) {
      assert PlaceOk(s.free, s.others, s.prod, cons', v, a);
    }
  }

  lemma ClaimCons(s: State, v: History, t: Tid, n: nat)
    requires AllCons(s.ix, s.blocks, v, s.cons) && AllLive(s.blocks, s.head, v) && t < |s.cons| && Shaped(s.ix, v.iv)
    requires |v.own| == s.head && s.head + n <= |v.log| && n > 0 && v.blk.Keys == v.iv.ent.Keys
    ensures AllCons(s.ix, s.blocks, ClaimedView(v, t, n), s.cons[t := Claimed(s, n)])
    ensures AllLive(s.blocks, s.head + n, ClaimedView(v, t, n))
  {
    var v' := ClaimedView(v, t, n);
    forall j | HasElem(s.blocks, v, j) ensures HasElem(s.blocks, v', j) {}
    forall j | s.head <= j < |v.log| ensures HasElem(s.blocks, v', j) { assert HasElem(s.blocks, v, j); }
    forall u | 0 <= u < |s.cons| && u != t ensures Undisturbed(s.blocks, v, s.blocks, v', s.cons[u]) {
      assert ConsOk(s.ix, s.blocks, v, u, s.cons[u]);
    }
    OthersStay(s, v, s.ix, s.blocks, v', t, s.cons[t := Claimed(s, n)]);
  }

  lemma ClaimProd(s: State, v: History, t: Tid, n: nat)
    requires ProdOk(s.ix, s.blocks, s.tail, s.tailBlock, v, s.prod) && Shaped(s.ix, v.iv)
    ensures ProdOk(s.ix, s.blocks, s.tail, s.tailBlock, ClaimedView(v, t, n), s.prod)
  {
    SameNextLinks(s.blocks, s.blocks, v, s.tail, From(s.prod, v));
    ProdStays(s.ix, s.blocks, v, s.ix, s.blocks, ClaimedView(v, t, n), s.tail, s.tailBlock, s.prod);
  }

  lemma ClaimKeepsBody(s: State, v: History, t: Tid, n: nat)
    requires Body(s, v) && t < |s.cons| && s.cons[t].Idle? && n > 0 && s.head + n <= s.tail
    ensures Body(s.(head := s.head + n, cons := s.cons[t := Claimed(s, n)]), ClaimedView(v, t, n))
  {
    assert ConsOk(s.ix, s.blocks, v, t, s.cons[t]);
    ClaimMapped(s, v, t, n);
    ClaimPlaced(s, v, t, n);
    ClaimCons(s, v, t, n);
    ClaimProd(s, v, t, n);
  }

  lemma StepClaim(s: State, v: History, t: Tid, n: nat) returns (v': History)
    requires Body(s, v) && Enabled(s, Claim(t, n))
    ensures Body(Next(s, Claim(t, n)), v') && Next(s, Claim(t, n)).ix == s.ix && v'.iv == v.iv && v'.log == v.log
  {
    v' := ClaimedView(v, t, n);
    ClaimKeepsBody(s, v, t, n);
  }

  // ---------------------------------------------------------------------------------------------
  // The producer: steps that keep every block where it is
  // ---------------------------------------------------------------------------------------------

  predicate Undoes(prod: Prod) { prod.UndoValue? || prod.UndoTail? || prod.FreeChain? }

  /** No block is held by the call, or undone, before and after. */
  predicate SameRole(prod: Prod, v: History, prod': Prod, v': History) {
    && !prod.StoreValue?
    && (Undoes(prod) ==> v'.pend == v.pend && Undoes(prod') && (prod'.FreeChain? ==> v'.w == 0))
  }

  lemma RoleKept(s: State, v: History, prod': Prod, v': History)
    requires AllPlaced(s.free, s.others, s.prod, s.cons, v) && SameRole(s.prod, v, prod', v')
    requires v'.place == v.place && v'.blk == v.blk
    ensures AllPlaced(s.free, s.others, prod', s.cons, v')
  {
    forall b | 0 <= b < |v.place| ensures PlaceOk(s.free, s.others, prod', s.cons, v', b) {
      assert PlaceOk(s.free, s.others, s.prod, s.cons, v, b);
    }
  }

  /** The index and the local variables of the producer change; blocks and elements stay. */
  predicate SameBlocks(ix: Index, v: History, ix': Index, v': History) {
    && Extends(ix, v.iv, ix', v'.iv) && v'.iv.ent == v.iv.ent && v'.blk == v.blk && v'.place == v.place
    && v'.log == v.log && v'.own == v.own
    && (forall e :: 0 <= e < |ix.entries| && e !in v.iv.open ==> ix'.entries[e].value == ix.entries[e].value)
  }

  lemma ConsumersStay(s: State, v: History, ix': Index, v': History)
    requires BlockIndex.Inv(s.ix, v.iv) && v.blk.Keys == v.iv.ent.Keys && SameBlocks(s.ix, v, ix', v')
    requires AllMapped(s.ix, s.blocks, s.cons, s.head, v) && AllLive(s.blocks, s.head, v) && AllCons(s.ix, s.blocks, v, s.cons)
    ensures AllMapped(ix', s.blocks, s.cons, s.head, v') && AllLive(s.blocks, s.head, v') && AllCons(ix', s.blocks, v', s.cons)
  {
    forall q | q in v'.blk ensures MappedOk(ix', s.blocks, s.cons, s.head, v', q) {
      assert MappedOk(s.ix, s.blocks, s.cons, s.head, v, q) && InUse(s.ix, v.iv, q);
    }
    forall j | HasElem(s.blocks, v, j) ensures HasElem(s.blocks, v', j) {}
    forall j | s.head <= j < |v.log| ensures HasElem(s.blocks, v', j) { assert HasElem(s.blocks, v, j); }
    forall t | 0 <= t < |s.cons| ensures ConsOk(ix', s.blocks, v', t, s.cons[t]) {
      assert ConsOk(s.ix, s.blocks, v, t, s.cons[t]);
      ConsStays(s.ix, s.blocks, v, ix', s.blocks, v', t, s.cons[t]);
    }
  }

  lemma ProducerMoves(s: State, v: History, s': State, v': History)
    requires Inv(s, v) && SameBlocks(s.ix, v, s'.ix, v') && SameRole(s.prod, v, s'.prod, v')
    requires s' == s.(ix := s'.ix, prod := s'.prod, tail := s'.tail, tailBlock := s'.tailBlock)
    requires Numbers(s', v') && Below(s'.tail, v') && ProdOk(s'.ix, s'.blocks, s'.tail, s'.tailBlock, v', s'.prod)
    ensures Body(s', v')
  {
    RoleKept(s, v, s'.prod, v');
    ConsumersStay(s, v, s'.ix, v');
  }

  lemma BeginWriteOk(s: State, v: History, c: Call)
    requires Building(s.blocks, s.tailBlock, v.blk, v.pend, s.tail, c) && c.left == 0 && Inserted(v, s.tail, 0) && |v.log| == s.tail
    ensures var s' := BeginWrite(s, c);
      ProdOk(s.ix, s.blocks, s.tail, s'.tailBlock, v.(w := BlockOf(s.tail)), s'.prod) && Written(s'.prod, s.tail) == s.tail
  {
    var v', n := v.(w := BlockOf(s.tail)), Blocks(s.tail);
    forall i | 0 <= i < |v.pend| ensures BuiltAt(v'.blk, v'.pend, s.tail, i) { assert BuiltAt(v.blk, v.pend, s.tail, i); }
    if c.items != [] && CellOf(s.tail) == 0 { assert BuiltAt(v.blk, v.pend, s.tail, 0); }
  }

  lemma StepStart(s: State, v: History, items: seq<Elem>) returns (v': History)
    requires Inv(s, v) && s.prod.Ready?
    ensures Inv(Next(s, StartEnqueue(items)), v') && v'.log == v.log
  {
    var c := Call(items, s.tailBlock, Null, Blocks(s.tail + |items|) - Blocks(s.tail));
    assert Building(s.blocks, s.tailBlock, v.blk, v.pend, s.tail, c);
    if c.left > 0 {
      v' := v;
    } else {
      BeginWriteOk(s, v, c);
      v' := v.(w := BlockOf(s.tail));
    }
    ProducerMoves(s, v, Next(s, StartEnqueue(items)), v');
  }

  lemma NextEntry(s: State, v: History)
    requires BlockIndex.Inv(s.ix, v.iv)
    ensures var e := EntryOf(s.ix, |s.ix.headers| - 1, NewTail(s.ix)); e == CurEntry(s.ix, v.iv, v.iv.ins) && e < |s.ix.entries|
  {
    NewTailIsNext(s.ix, v.iv);
  }

  /** Nothing has been undone yet. */
  lemma StartUndo(s: State, v: History, c: Call)
    requires Building(s.blocks, s.tailBlock, v.blk, v.pend, s.tail, c) && Inserted(v, s.tail, 0)
    ensures ProdOk(s.ix, s.blocks, s.tail, s.tailBlock, v, UndoValue(c, c.first, Blocks(s.tail)))
  {
  }

  lemma StepNoRoom(s: State, v: History, ok: bool, b: Block, junk: Ptr)
    requires Inv(s, v) && s.prod.Check? && !RoomFor(s.head, s.tail, s.prod.c) && Enabled(s, Produce(ok, b, junk))
    ensures Inv(Produce1(s, ok, b, junk), v)
  {
    StartUndo(s, v, s.prod.c);
    ProducerMoves(s, v, s.(prod := UndoValue(s.prod.c, s.prod.c.first, Blocks(s.tail))), v);
  }

  /** Whether the next entry is vacant decides whether the index has to grow. */
  lemma CheckProd(s: State, v: History, ok: bool, b: Block, junk: Ptr) returns (prod': Prod)
    requires BlockIndex.Inv(s.ix, v.iv) && s.prod.Check? && Enabled(s, Produce(ok, b, junk)) && v.blk.Keys == v.iv.ent.Keys
    requires ProdOk(s.ix, s.blocks, s.tail, s.tailBlock, v, s.prod) && Below(s.tail, v) && RoomFor(s.head, s.tail, s.prod.c)
    ensures Produce1(s, ok, b, junk) == s.(prod := prod') && (prod'.StoreKey? || prod'.NeedIndex?)
    ensures ProdOk(s.ix, s.blocks, s.tail, s.tailBlock, v, prod')
  {
    NextEntry(s, v);
    if !Vacant(s.ix, CurEntry(s.ix, v.iv, v.iv.ins)) { OccupiedMeansFull(s.ix, v.iv); }
    prod' := Produce1(s, ok, b, junk).prod;
  }

  lemma StepCheck(s: State, v: History, ok: bool, b: Block, junk: Ptr) returns (v': History)
    requires Inv(s, v) && s.prod.Check? && Enabled(s, Produce(ok, b, junk))
    ensures Inv(Produce1(s, ok, b, junk), v') && v'.log == v.log
  {
    v' := v;
    if RoomFor(s.head, s.tail, s.prod.c) {
      var prod' := CheckProd(s, v, ok, b, junk);
      ProducerMoves(s, v, s.(prod := prod'), v);
    } else {
      StepNoRoom(s, v, ok, b, junk);
    }
  }

  function IndexView(v: History, iv: BlockIndex.View): History { v.(iv := iv) }

  lemma GrowOk(s: State, v: History, junk: Ptr)
    requires BlockIndex.Inv(s.ix, v.iv) && v.iv.open == {} && v.iv.lo < v.iv.ins == v.iv.hi
    ensures var ix', v' := Grow(s.ix, junk), IndexView(v, GrowView(s.ix, v.iv));
      && BlockIndex.Inv(ix', v'.iv) && SameBlocks(s.ix, v, ix', v') && VacantAt(ix', v', v.iv.ins)
      && KeyAt(ix', |s.ix.headers|, NewTail(ix')).Invalid?
  {
    GrowKeepsInv(s.ix, v.iv, junk);
    GrowShape(s.ix, v.iv, junk);
    NewTailIsNext(Grow(s.ix, junk), GrowView(s.ix, v.iv));
  }

  lemma StepNeedIndex(s: State, v: History, ok: bool, b: Block, junk: Ptr) returns (v': History)
    requires Inv(s, v) && s.prod.NeedIndex? && Enabled(s, Produce(ok, b, junk))
    ensures Inv(Produce1(s, ok, b, junk), v') && v'.log == v.log
  {
    if ok {
      GrowOk(s, v, junk);
      v' := IndexView(v, GrowView(s.ix, v.iv));
    } else {
      StartUndo(s, v, s.prod.c);
      v' := v;
    }
    ProducerMoves(s, v, Produce1(s, ok, b, junk), v');
  }

  lemma StoreKeyOk(s: State, v: History, e: EntryId)
    requires BlockIndex.Inv(s.ix, v.iv) && v.iv.open == {} && e == CurEntry(s.ix, v.iv, v.iv.ins) && e < |s.ix.entries| && Vacant(s.ix, e)
    ensures var ix', v' := SetKey(s.ix, e, v.iv.ins), IndexView(v, KeyView(v.iv, e));
      && BlockIndex.Inv(ix', v'.iv) && SameBlocks(s.ix, v, ix', v') && OpenAt(ix', v', e, v'.iv.ins) && v'.iv.ins < v'.iv.hi
  {
    StoreKeyKeepsInv(s.ix, v.iv, e);
  }

  lemma StoreKeyProd(s: State, v: History, e: EntryId, ok: bool, b: Block, junk: Ptr)
    requires BlockIndex.Inv(s.ix, v.iv) && s.prod.StoreKey? && Enabled(s, Produce(ok, b, junk)) && e == CurEntry(s.ix, v.iv, v.iv.ins)
    requires ProdOk(s.ix, s.blocks, s.tail, s.tailBlock, v, s.prod) && v.blk.Keys == v.iv.ent.Keys
    ensures e < |s.ix.entries| && Vacant(s.ix, e) && v.iv.open == {}
    ensures var ix', v' := SetKey(s.ix, e, v.iv.ins), IndexView(v, KeyView(v.iv, e));
      && Produce1(s, ok, b, junk) == s.(ix := ix', prod := StoreTail(s.prod.c, e))
      && ProdOk(ix', s.blocks, s.tail, s.tailBlock, v', StoreTail(s.prod.c, e))
      && (v.iv.hi - Cur(s.ix).cap <= Blocks(s.tail) ==> v'.iv.hi - Cur(ix').cap <= Blocks(s.tail))
  {
    var ix', v' := SetKey(s.ix, e, v.iv.ins), IndexView(v, KeyView(v.iv, e));
    NextEntry(s, v);
    StoreKeyOk(s, v, e);
    if v.pend != [] {
      assert BuiltAt(v.blk, v.pend, s.tail, 0) && InUse(ix', v'.iv, Blocks(s.tail));
    }
  }

  lemma StepStoreKey(s: State, v: History, ok: bool, b: Block, junk: Ptr) returns (v': History)
    requires Inv(s, v) && s.prod.StoreKey? && Enabled(s, Produce(ok, b, junk))
    ensures Inv(Produce1(s, ok, b, junk), v') && v'.log == v.log
  {
    var e := CurEntry(s.ix, v.iv, v.iv.ins);
    StoreKeyProd(s, v, e, ok, b, junk);
    StoreKeyOk(s, v, e);
    v' := IndexView(v, KeyView(v.iv, e));
    ProducerMoves(s, v, s.(ix := SetKey(s.ix, e, v.iv.ins), prod := StoreTail(s.prod.c, e)), v');
  }

  lemma TailMoves(s: State, v: History, tail: nat, ins: nat)
    requires BlockIndex.Inv(s.ix, v.iv) && tail < Cur(s.ix).cap
    requires BlockIndex.Inv(SetTail(s.ix, tail), v.iv.(ins := ins))
    ensures SameBlocks(s.ix, v, SetTail(s.ix, tail), IndexView(v, v.iv.(ins := ins)))
    ensures forall q :: CurEntry(SetTail(s.ix, tail), v.iv.(ins := ins), q) == CurEntry(s.ix, v.iv, q)
    ensures Cur(SetTail(s.ix, tail)).cap == Cur(s.ix).cap && |SetTail(s.ix, tail).headers| == |s.ix.headers|
  {
  }

  lemma StepStoreTail(s: State, v: History, ok: bool, b: Block, junk: Ptr) returns (v': History)
    requires Inv(s, v) && s.prod.StoreTail? && Enabled(s, Produce(ok, b, junk))
    ensures Inv(Produce1(s, ok, b, junk), v') && v'.log == v.log
  {
    StoreTailKeepsInv(s.ix, v.iv);
    TailMoves(s, v, NewTail(s.ix), v.iv.ins + 1);
    v' := IndexView(v, v.iv.(ins := v.iv.ins + 1));
    ProducerMoves(s, v, Produce1(s, ok, b, junk), v');
  }

  lemma RewindOk(s: State, v: History)
    requires BlockIndex.Inv(s.ix, v.iv) && v.iv.ins > v.iv.lo && v.iv.ins > v.iv.hi - Cur(s.ix).cap
    ensures var ix', v' := Rewind(s.ix), IndexView(v, v.iv.(ins := v.iv.ins - 1));
      && BlockIndex.Inv(ix', v'.iv) && SameBlocks(s.ix, v, ix', v') && Cur(ix').cap == Cur(s.ix).cap && |ix'.headers| == |s.ix.headers|
      && forall q :: CurEntry(ix', v'.iv, q) == CurEntry(s.ix, v.iv, q)
  {
    RewindKeepsInv(s.ix, v.iv);
    TailMoves(s, v, (Cur(s.ix).tail - 1) % Cur(s.ix).cap, v.iv.ins - 1);
  }

  lemma StepDropTail(s: State, v: History, ok: bool, b: Block, junk: Ptr) returns (v': History)
    requires Inv(s, v) && s.prod.DropTail? && Enabled(s, Produce(ok, b, junk))
    ensures Inv(Produce1(s, ok, b, junk), v') && v'.log == v.log
  {
    RewindOk(s, v);
    v' := IndexView(v, v.iv.(ins := v.iv.ins - 1));
    ProducerMoves(s, v, Produce1(s, ok, b, junk), v');
  }

  lemma DropValueOk(s: State, v: History, e: EntryId)
    requires Inv(s, v) && OpenAt(s.ix, v, e, v.iv.ins) && v.iv.ins < v.iv.hi && v.iv.ins !in v.blk && v.iv.hi - Cur(s.ix).cap <= v.iv.ins
    ensures var ix', v' := SetValue(s.ix, e, Null), IndexView(v, ValueView(v.iv, e, v.iv.ins, Null));
      && BlockIndex.Inv(ix', v'.iv) && SameBlocks(s.ix, v, ix', v') && v'.iv == v.iv.(open := {})
  {
    StoreValueKeepsInv(s.ix, v.iv, e, v.iv.ins, Null);
    assert v.iv.ent - {v.iv.ins} == v.iv.ent;
  }

  lemma DropValueProd(s: State, v: History, ok: bool, b: Block, junk: Ptr)
    requires Inv(s, v) && s.prod.DropValue? && Enabled(s, Produce(ok, b, junk))
    ensures var e, c := s.prod.e, s.prod.c;
      && OpenAt(s.ix, v, e, v.iv.ins) && v.iv.ins < v.iv.hi && v.iv.ins !in v.blk
      && Produce1(s, ok, b, junk) == s.(ix := SetValue(s.ix, e, Null), prod := UndoValue(c, c.first, Blocks(s.tail)))
  {
  }

  lemma StepDropValue(s: State, v: History, ok: bool, b: Block, junk: Ptr) returns (v': History)
    requires Inv(s, v) && s.prod.DropValue? && Enabled(s, Produce(ok, b, junk))
    ensures Inv(Produce1(s, ok, b, junk), v') && v'.log == v.log
  {
    var e, c := s.prod.e, s.prod.c;
    DropValueProd(s, v, ok, b, junk);
    DropValueOk(s, v, e);
    v' := IndexView(v, ValueView(v.iv, e, v.iv.ins, Null));
    ProducerMoves(s, v, s.(ix := SetValue(s.ix, e, Null), prod := UndoValue(c, c.first, Blocks(s.tail))), v');
  }

  lemma UndoTailProd(s: State, v: History, ok: bool, b: Block, junk: Ptr) returns (prod': Prod)
    requires BlockIndex.Inv(s.ix, v.iv) && s.prod.UndoTail? && Enabled(s, Produce(ok, b, junk)) && AllCells(s.blocks)
    requires ProdOk(s.ix, s.blocks, s.tail, s.tailBlock, v, s.prod)
    ensures Produce1(s, ok, b, junk) == s.(ix := Rewind(s.ix), prod := prod') && prod'.UndoValue?
    ensures ProdOk(Rewind(s.ix), s.blocks, s.tail, s.tailBlock, IndexView(v, v.iv.(ins := v.iv.ins - 1)), prod')
  {
    assert LinkOk(s.blocks, v.pend, s.prod.q - Blocks(s.tail));
    prod' := Produce1(s, ok, b, junk).prod;
  }

  lemma RewoundKeepsInv(s: State, v: History, prod': Prod)
    requires Inv(s, v) && s.prod.UndoTail? && prod'.UndoValue?
    requires ProdOk(Rewind(s.ix), s.blocks, s.tail, s.tailBlock, IndexView(v, v.iv.(ins := v.iv.ins - 1)), prod')
    ensures Inv(s.(ix := Rewind(s.ix), prod := prod'), IndexView(v, v.iv.(ins := v.iv.ins - 1)))
  {
    RewindOk(s, v);
    ProducerMoves(s, v, s.(ix := Rewind(s.ix), prod := prod'), IndexView(v, v.iv.(ins := v.iv.ins - 1)));
  }

  lemma StepUndoTail(s: State, v: History, ok: bool, b: Block, junk: Ptr) returns (v': History)
    requires Inv(s, v) && s.prod.UndoTail? && Enabled(s, Produce(ok, b, junk))
    ensures Inv(Produce1(s, ok, b, junk), v') && v'.log == v.log
  {
    var prod' := UndoTailProd(s, v, ok, b, junk);
    v' := IndexView(v, v.iv.(ins := v.iv.ins - 1));
    RewoundKeepsInv(s, v, prod');
  }

  lemma PublishOk(s: State, v: History)
    requires s.prod.Publish? && ProdOk(s.ix, s.blocks, s.tail, s.tailBlock, v, s.prod) && Below(s.tail, v)
    ensures ProdOk(s.ix, s.blocks, s.tail + |s.prod.c.items|, s.tailBlock, v.(pend := []), Ready(true))
    ensures Below(s.tail + |s.prod.c.items|, v.(pend := [])) && Blocks(s.tail) <= Blocks(s.tail + |s.prod.c.items|)
  {
  }

  /** tailIndex.store: the elements of the call, which all stand in their blocks, become visible at once,
      and nothing else changes. */
  lemma StepPublish(s: State, v: History, ok: bool, b: Block, junk: Ptr) returns (v': History)
    requires Inv(s, v) && s.prod.Publish? && Enabled(s, Produce(ok, b, junk))
    ensures var s' := Produce1(s, ok, b, junk);
      && Inv(s', v') && v'.log == v.log && s' == s.(tail := |v.log|, prod := Ready(true))
      && v.log[s.tail..s'.tail] == s.prod.c.items && AllLive(s'.blocks, s.head, v')
  {
    PublishOk(s, v);
    v' := v.(pend := []);
    ProducerMoves(s, v, s.(tail := s.tail + |s.prod.c.items|, prod := Ready(true)), v');
  }

  lemma UndoneMeansFreed(s: State, v: History)
    requires s.prod.UndoValue? && s.prod.cur.Null? && ProdOk(s.ix, s.blocks, s.tail, s.tailBlock, v, s.prod)
    ensures ProdOk(s.ix, s.blocks, s.tail, s.tailBlock, v.(w := 0), FreeChain(s.prod.c, s.prod.c.first))
  {
  }

  lemma StepUndone(s: State, v: History, ok: bool, b: Block, junk: Ptr) returns (v': History)
    requires Inv(s, v) && s.prod.UndoValue? && s.prod.cur.Null? && Enabled(s, Produce(ok, b, junk))
    ensures Inv(Produce1(s, ok, b, junk), v') && v'.log == v.log
  {
    UndoneMeansFreed(s, v);
    v' := v.(w := 0);
    ProducerMoves(s, v, s.(prod := FreeChain(s.prod.c, s.prod.c.first)), v');
  }

  /** No block is held by a call or undone, and none is in the index beyond the tail. */
  predicate Clean(tail: nat, v: History) {
    && (forall b :: 0 <= b < |v.place| ==> !v.place[b].Held? && !v.place[b].Undone?)
    && (forall q :: q in v.blk ==> q < Blocks(tail))
  }

  lemma FailedIsClean(s: State, v: History)
    requires s.prod.FreeChain? && s.prod.cur.Null? && ProdOk(s.ix, s.blocks, s.tail, s.tailBlock, v, s.prod)
    requires Below(s.tail, v) && AllPlaced(s.free, s.others, s.prod, s.cons, v)
    ensures Clean(s.tail, v)
  {
    forall b | 0 <= b < |v.place| ensures !v.place[b].Held? && !v.place[b].Undone? {
      assert PlaceOk(s.free, s.others, s.prod, s.cons, v, b);
    }
    forall q | q in v.blk ensures q < Blocks(s.tail) {
      assert q >= Blocks(s.tail) ==> ClearedAt(v.blk, s.tail, q - Blocks(s.tail));
    }
  }

  lemma FailedPlaced(s: State, v: History)
    requires AllPlaced(s.free, s.others, s.prod, s.cons, v) && Clean(s.tail, v)
    ensures AllPlaced(s.free, s.others, Ready(false), s.cons, v.(pend := []))
  {
    forall a | 0 <= a < |v.place| ensures PlaceOk(s.free, s.others, Ready(false), s.cons, v.(pend := []), a) {
      assert PlaceOk(s.free, s.others, s.prod, s.cons, v, a);
    }
  }

  /** All blocks of the failed call are back on the free list: nothing is left of it. */
  lemma StepFailed(s: State, v: History, ok: bool, b: Block, junk: Ptr) returns (v': History)
    requires Inv(s, v) && s.prod.FreeChain? && s.prod.cur.Null? && Enabled(s, Produce(ok, b, junk))
    ensures var s' := Produce1(s, ok, b, junk);
      && Inv(s', v') && v'.log == v.log && s' == s.(tailBlock := s.prod.c.start, prod := Ready(false)) && Clean(s'.tail, v')
  {
    v' := v.(pend := []);
    FailedIsClean(s, v);
    FailedPlaced(s, v);
    ConsumersStay(s, v, s.ix, v');
  }

  /** The last block to write is the end block. */
  lemma LastIsEnd(s: State, v: History)
    requires s.prod.Write? && ProdOk(s.ix, s.blocks, s.tail, s.tailBlock, v, s.prod) && s.prod.c.items != []
    requires v.w + 1 == Blocks(s.tail + |s.prod.c.items|)
    ensures s.tailBlock == s.prod.end
  {
    assert v.pend != [] ==> BuiltAt(v.blk, v.pend, s.tail, |v.pend| - 1);
  }

  /** The next pointer of the block just filled leads to the next block of the call. */
  lemma NextBlockLinked(s: State, v: History)
    requires s.prod.Write? && ProdOk(s.ix, s.blocks, s.tail, s.tailBlock, v, s.prod) && s.prod.c.items != []
    requires v.w + 1 < Blocks(s.tail + |s.prod.c.items|) && s.tailBlock.b < |s.blocks|
    ensures v.w + 1 in v.blk && s.blocks[s.tailBlock.b].next == At(v.blk[v.w + 1])
  {
    var n := Blocks(s.tail);
    if v.w >= n {
      assert BuiltAt(v.blk, v.pend, s.tail, v.w - n) && BuiltAt(v.blk, v.pend, s.tail, v.w + 1 - n);
      assert LinkOk(s.blocks, v.pend, v.w - n);
    } else {
      assert BuiltAt(v.blk, v.pend, s.tail, 0);
    }
  }

  lemma NextWriteOk(s: State, v: History)
    requires s.prod.Write? && s.prod.i >= s.prod.stop && s.tailBlock != s.prod.end && s.tailBlock.At? && s.tailBlock.b < |s.blocks|
    requires ProdOk(s.ix, s.blocks, s.tail, s.tailBlock, v, s.prod)
    ensures var c, i := s.prod.c, s.prod.i; 
      ProdOk(s.ix, s.blocks, s.tail, s.blocks[s.tailBlock.b].next, v.(w := v.w + 1), Write(c, s.prod.end, i, Stop(i, s.tail + |c.items|)))
  {
    if v.w + 1 == Blocks(s.tail + |s.prod.c.items|) { LastIsEnd(s, v); } else { NextBlockLinked(s, v); }
  }

  /** When the last block has been filled, everything has been written. */
  lemma LastWriteOk(s: State, v: History)
    requires s.prod.Write? && s.prod.i >= s.prod.stop && s.tailBlock == s.prod.end
    requires ProdOk(s.ix, s.blocks, s.tail, s.tailBlock, v, s.prod) && AllMapped(s.ix, s.blocks, s.cons, s.head, v)
    ensures s.prod.i == s.tail + |s.prod.c.items|
    ensures ProdOk(s.ix, s.blocks, s.tail, s.tailBlock, v, Publish(s.prod.c))
  {
    var c := s.prod.c;
    if c.items != [] {
      var last := Blocks(s.tail + |c.items|) - 1;
      if v.pend != [] { assert BuiltAt(v.blk, v.pend, s.tail, |v.pend| - 1); }
      if v.w != last { DistinctBlocks(s, v, v.w, last); }
    }
  }

  lemma StepAllWritten(s: State, v: History, ok: bool, b: Block, junk: Ptr) returns (v': History)
    requires Inv(s, v) && s.prod.Write? && s.prod.i >= s.prod.stop && s.tailBlock == s.prod.end && Enabled(s, Produce(ok, b, junk))
    ensures Inv(Produce1(s, ok, b, junk), v') && v'.log == v.log
  {
    LastWriteOk(s, v);
    v' := v;
    ProducerMoves(s, v, s.(prod := Publish(s.prod.c)), v');
  }

  lemma BlockWrittenProd(s: State, v: History, ok: bool, b: Block, junk: Ptr) returns (p: Ptr, prod': Prod)
    requires s.prod.Write? && s.prod.i >= s.prod.stop && s.tailBlock != s.prod.end && Enabled(s, Produce(ok, b, junk)) && WellFormed(s.ix)
    requires ProdOk(s.ix, s.blocks, s.tail, s.tailBlock, v, s.prod) && AllCells(s.blocks)
    requires AllMapped(s.ix, s.blocks, s.cons, s.head, v)
    ensures Produce1(s, ok, b, junk) == s.(tailBlock := p, prod := prod') && prod'.Write? && prod'.i == s.prod.i
    ensures ProdOk(s.ix, s.blocks, s.tail, p, v.(w := v.w + 1), prod')
  {
    assert MappedOk(s.ix, s.blocks, s.cons, s.head, v, v.w);
    NextWriteOk(s, v);
    p, prod' := s.blocks[s.tailBlock.b].next, Write(s.prod.c, s.prod.end, s.prod.i, Stop(s.prod.i, s.tail + |s.prod.c.items|));
  }

  lemma StepBlockWritten(s: State, v: History, ok: bool, b: Block, junk: Ptr) returns (v': History)
    requires Inv(s, v) && s.prod.Write? && s.prod.i >= s.prod.stop && s.tailBlock != s.prod.end && Enabled(s, Produce(ok, b, junk))
    ensures Inv(Produce1(s, ok, b, junk), v') && v'.log == v.log
  {
    var p, prod' := BlockWrittenProd(s, v, ok, b, junk);
    v' := v.(w := v.w + 1);
    ProducerMoves(s, v, s.(tailBlock := p, prod := prod'), v');
  }

  // ---------------------------------------------------------------------------------------------
  // The producer: steps that move blocks or elements
  // ---------------------------------------------------------------------------------------------

  lemma PlacesKeepCons(s: State, v: History, b: Block, p: Place, blocks': seq<Mem>, pend: seq<Block>, w: nat)
    requires AllCons(s.ix, s.blocks, v, s.cons) && AllMapped(s.ix, s.blocks, s.cons, s.head, v) && AllLive(s.blocks, s.head, v)
    requires b < |v.place| == |s.blocks| && Outside(v.place[b]) && !v.place[b].Freeing? && Shaped(s.ix, v.iv)
    requires |blocks'| == |s.blocks| && blocks' == s.blocks[b := blocks'[b]] && v.blk.Keys == v.iv.ent.Keys
    ensures var v' := PlacedView(v, b, p).(pend := pend, w := w);
      AllCons(s.ix, blocks', v', s.cons) && AllMapped(s.ix, blocks', s.cons, s.head, v') && AllLive(blocks', s.head, v')
  {
    var v1 := PlacedView(v, b, p);
    var v' := v1.(pend := pend, w := w);
    OutsideMapped(s, v, b, p, blocks');
    OutsideAllCons(s, v, b, p, blocks');
    forall q | q in v.blk ensures MappedOk(s.ix, blocks', s.cons, s.head, v', q) { assert MappedOk(s.ix, blocks', s.cons, s.head, v1, q); }
    forall j | HasElem(blocks', v1, j) ensures HasElem(blocks', v', j) {}
    forall j | s.head <= j < |v.log| ensures HasElem(blocks', v', j) { assert HasElem(s.blocks, v, j); }
    forall t | 0 <= t < |s.cons| ensures ConsOk(s.ix, blocks', v', t, s.cons[t]) {
      assert ConsOk(s.ix, blocks', v1, t, s.cons[t]);
      ConsStays(s.ix, blocks', v1, s.ix, blocks', v', t, s.cons[t]);
    }
  }

  lemma StepNoBlock(s: State, v: History, ok: bool, b: Block, junk: Ptr) returns (v': History)
    requires Inv(s, v) && s.prod.GetBlock? && !ok && Enabled(s, Produce(ok, b, junk))
    ensures Inv(Produce1(s, ok, b, junk), v') && v'.log == v.log
  {
    v' := v;
    ProducerMoves(s, v, s.(prod := DropTail(s.prod.c, s.prod.e)), v');
  }

  function Requisitioned(blocks: seq<Mem>, b: Block): seq<Mem>
    requires b < |blocks|
  { blocks[b := blocks[b].(done := 0, next := Null)] }

  lemma RequisitionProd(s: State, v: History, b: Block)
    requires s.prod.GetBlock? && ProdOk(s.ix, s.blocks, s.tail, s.tailBlock, v, s.prod) && b < |s.blocks| == |v.place| && v.place[b].Free?
    requires AllMapped(s.ix, s.blocks, s.cons, s.head, v)
    ensures ProdOk(s.ix, Requisitioned(s.blocks, b), s.tail, s.tailBlock, PlacedView(v, b, Held), StoreValue(s.prod.c, s.prod.e, b))
  {
    var blocks' := Requisitioned(s.blocks, b);
    forall i | 0 <= i < |v.pend| ensures LinkOk(blocks', v.pend, i) {
      assert LinkOk(s.blocks, v.pend, i) && BuiltAt(v.blk, v.pend, s.tail, i);
      assert MappedOk(s.ix, s.blocks, s.cons, s.head, v, Blocks(s.tail) + i);
    }
    if CellOf(s.tail) != 0 {
      assert MappedOk(s.ix, s.blocks, s.cons, s.head, v, Blocks(s.tail) - 1);
    }
  }

  lemma GotBlockKeepsBody(s: State, v: History, b: Block)
    requires Body(s, v) && s.prod.GetBlock? && b < |s.blocks| && b in s.free
    ensures Body(s.(free := s.free - {b}, blocks := Requisitioned(s.blocks, b), prod := StoreValue(s.prod.c, s.prod.e, b)), PlacedView(v, b, Held))
  {
    var v', prod', free' := PlacedView(v, b, Held), StoreValue(s.prod.c, s.prod.e, b), s.free - {b};
    assert PlaceOk(s.free, s.others, s.prod, s.cons, v, b);
    RequisitionProd(s, v, b);
    PlacesKeepCons(s, v, b, Held, Requisitioned(s.blocks, b), v.pend, v.w);
    forall a | 0 <= a < |v'.place| ensures PlaceOk(free', s.others, prod', s.cons, v', a) {
      assert PlaceOk(s.free, s.others, s.prod, s.cons, v, a);
    }
  }

  /** requisition_block: the block is the producer's alone from now on. */
  lemma StepGotBlock(s: State, v: History, ok: bool, b: Block, junk: Ptr) returns (v': History)
    requires Inv(s, v) && s.prod.GetBlock? && ok && Enabled(s, Produce(ok, b, junk))
    ensures Inv(Produce1(s, ok, b, junk), v') && v'.log == v.log
  {
    v' := PlacedView(v, b, Held);
    GotBlockKeepsBody(s, v, b);
  }

  lemma FreeChainProd(s: State, v: History)
    requires s.prod.FreeChain? && s.prod.cur.At? && ProdOk(s.ix, s.blocks, s.tail, s.tailBlock, v, s.prod) && |v.place| == |s.blocks|
    ensures var b := s.prod.cur.b;
      && b < |s.blocks| && v.place[b] == Undone(v.w) && v.w < |v.pend| && v.pend[v.w] == b
      && ProdOk(s.ix, s.blocks, s.tail, s.tailBlock, PlacedView(v, b, Free).(w := v.w + 1), FreeChain(s.prod.c, s.blocks[b].next))
  {
    var b := s.prod.cur.b;
    assert UndoneAt(v.place, v.pend, v.w) && LinkOk(s.blocks, v.pend, v.w);
    var v' := PlacedView(v, b, Free).(w := v.w + 1);
    forall i | v'.w <= i < |v.pend| ensures UndoneAt(v'.place, v.pend, i) { assert UndoneAt(v.place, v.pend, i); }
  }

  lemma FreedKeepsBody(s: State, v: History)
    requires Body(s, v) && s.prod.FreeChain? && s.prod.cur.At? && s.prod.cur.b < |s.blocks|
    ensures Body(s.(free := s.free + {s.prod.cur.b}, prod := FreeChain(s.prod.c, s.blocks[s.prod.cur.b].next)),
                 PlacedView(v, s.prod.cur.b, Free).(w := v.w + 1))
  {
    var b := s.prod.cur.b;
    var v', prod', free' := PlacedView(v, b, Free).(w := v.w + 1), FreeChain(s.prod.c, s.blocks[b].next), s.free + {b};
    FreeChainProd(s, v);
    PlacesKeepCons(s, v, b, Free, s.blocks, v.pend, v.w + 1);
    forall a | 0 <= a < |v'.place| ensures PlaceOk(free', s.others, prod', s.cons, v', a) {
      assert PlaceOk(s.free, s.others, s.prod, s.cons, v, a);
    }
  }

  /** add_blocks_to_free_list, one block. */
  lemma StepFreed(s: State, v: History, ok: bool, b: Block, junk: Ptr) returns (v': History)
    requires Inv(s, v) && s.prod.FreeChain? && s.prod.cur.At? && Enabled(s, Produce(ok, b, junk))
    ensures Inv(Produce1(s, ok, b, junk), v') && v'.log == v.log
  {
    FreeChainProd(s, v);
    v' := PlacedView(v, s.prod.cur.b, Free).(w := v.w + 1);
    FreedKeepsBody(s, v);
  }

  // ---------------------------------------------------------------------------------------------
  // Writing an element
  // ---------------------------------------------------------------------------------------------

  function Filled(blocks: seq<Mem>, b: Block, i: nat, x: Elem): seq<Mem>
    requires b < |blocks| && |blocks[b].cells| == BLOCK_SIZE
  {
    blocks[b := blocks[b].(cells := blocks[b].cells[CellOf(i) := Full(x)])]
  }

  lemma FilledKeeps(s: State, v: History, b: Block, x: Elem)
    requires AllMapped(s.ix, s.blocks, s.cons, s.head, v) && AllCells(s.blocks) && b < |s.blocks|
    requires BlockOf(|v.log|) in v.blk && v.blk[BlockOf(|v.log|)] == b
    ensures var blocks', v' := Filled(s.blocks, b, |v.log|, x), v.(log := v.log + [x]);
      && (forall j :: HasElem(s.blocks, v, j) ==> HasElem(blocks', v', j)) && HasElem(blocks', v', |v.log|)
      && SameDone(s.blocks, blocks') && SameNext(s.blocks, blocks') && AllCells(blocks')
  {
    var blocks', v', i := Filled(s.blocks, b, |v.log|, x), v.(log := v.log + [x]), |v.log|;
    forall j | HasElem(s.blocks, v, j) ensures HasElem(blocks', v', j) {
      if BlockOf(j) != BlockOf(i) { DistinctBlocks(s, v, BlockOf(i), BlockOf(j)); }
    }
  }

  lemma FilledConsumers(s: State, v: History, b: Block, x: Elem)
    requires AllMapped(s.ix, s.blocks, s.cons, s.head, v) && AllCells(s.blocks) && b < |s.blocks| && Shaped(s.ix, v.iv)
    requires AllCons(s.ix, s.blocks, v, s.cons) && AllLive(s.blocks, s.head, v) && v.blk.Keys == v.iv.ent.Keys
    requires BlockOf(|v.log|) in v.blk && v.blk[BlockOf(|v.log|)] == b
    ensures var blocks', v' := Filled(s.blocks, b, |v.log|, x), v.(log := v.log + [x]);
      AllMapped(s.ix, blocks', s.cons, s.head, v') && AllCons(s.ix, blocks', v', s.cons) && AllLive(blocks', s.head, v')
  {
    var blocks', v' := Filled(s.blocks, b, |v.log|, x), v.(log := v.log + [x]);
    FilledKeeps(s, v, b, x);
    forall q | q in v.blk ensures MappedOk(s.ix, blocks', s.cons, s.head, v', q) { assert MappedOk(s.ix, s.blocks, s.cons, s.head, v, q); }
    forall j | s.head <= j < |v'.log| ensures HasElem(blocks', v', j) { assert j < |v.log| ==> HasElem(s.blocks, v, j); }
    forall t | 0 <= t < |s.cons| ensures ConsOk(s.ix, blocks', v', t, s.cons[t]) {
      assert ConsOk(s.ix, s.blocks, v, t, s.cons[t]);
      ConsStays(s.ix, s.blocks, v, s.ix, blocks', v', t, s.cons[t]);
    }
  }

  lemma FilledProd(s: State, v: History)
    requires s.prod.Write? && s.prod.i < s.prod.stop && ProdOk(s.ix, s.blocks, s.tail, s.tailBlock, v, s.prod)
    requires AllMapped(s.ix, s.blocks, s.cons, s.head, v) && AllCells(s.blocks)
    ensures var c, i := s.prod.c, s.prod.i;
      && v.w in v.blk && BlockOf(i) == v.w && s.tailBlock == At(v.blk[v.w]) && v.blk[v.w] < |s.blocks|
      && s.tail <= i == |v.log| < s.tail + |c.items|
      && var x := c.items[i - s.tail];
      ProdOk(s.ix, Filled(s.blocks, v.blk[v.w], i, x), s.tail, s.tailBlock, v.(log := v.log + [x]), Write(c, s.prod.end, i + 1, s.prod.stop))
  {
    var c, i := s.prod.c, s.prod.i;
    assert MappedOk(s.ix, s.blocks, s.cons, s.head, v, v.w);
    var x := c.items[i - s.tail];
    var blocks' := Filled(s.blocks, v.blk[v.w], i, x);
    assert (v.log + [x])[s.tail..] == c.items[..i + 1 - s.tail];
    forall k | 0 <= k < |v.pend| ensures LinkOk(blocks', v.pend, k) { assert LinkOk(s.blocks, v.pend, k); }
  }

  lemma FilledKeepsBody(s: State, v: History, x: Elem)
    requires Body(s, v) && s.prod.Write? && s.prod.i < s.prod.stop && v.w in v.blk && v.blk[v.w] < |s.blocks|
    requires BlockOf(s.prod.i) == v.w && s.tail <= s.prod.i < s.tail + |s.prod.c.items| && x == s.prod.c.items[s.prod.i - s.tail]
    ensures Body(s.(blocks := Filled(s.blocks, v.blk[v.w], s.prod.i, x), prod := s.prod.(i := s.prod.i + 1)), v.(log := v.log + [x]))
  {
    var i := s.prod.i;
    var v', prod' := v.(log := v.log + [x]), s.prod.(i := s.prod.i + 1);
    FilledProd(s, v);
    FilledKeeps(s, v, v.blk[v.w], x);
    FilledConsumers(s, v, v.blk[v.w], x);
    RoleKept(s, v, prod', v');
  }

  lemma WriteShape(s: State, v: History, ok: bool, b: Block, junk: Ptr)
    requires s.prod.Write? && s.prod.i < s.prod.stop && ProdOk(s.ix, s.blocks, s.tail, s.tailBlock, v, s.prod)
    requires AllMapped(s.ix, s.blocks, s.cons, s.head, v) && AllCells(s.blocks) && WellFormed(s.ix) && Enabled(s, Produce(ok, b, junk))
    ensures v.w in v.blk && v.blk[v.w] < |s.blocks| && s.tail <= s.prod.i < s.tail + |s.prod.c.items|
    ensures Produce1(s, ok, b, junk) == s.(
      blocks := Filled(s.blocks, v.blk[v.w], s.prod.i, s.prod.c.items[s.prod.i - s.tail]), prod := s.prod.(i := s.prod.i + 1))
  {
    FilledProd(s, v);
  }

  lemma StepWrite(s: State, v: History, ok: bool, b: Block, junk: Ptr) returns (v': History)
    requires Body(s, v) && s.prod.Write? && s.prod.i < s.prod.stop && Enabled(s, Produce(ok, b, junk))
    ensures Body(Produce1(s, ok, b, junk), v') && Produce1(s, ok, b, junk).ix == s.ix && v'.iv == v.iv && v.log <= v'.log
  {
    WriteShape(s, v, ok, b, junk);
    FilledProd(s, v);
    var x := s.prod.c.items[s.prod.i - s.tail];
    FilledKeepsBody(s, v, x);
    v' := v.(log := v.log + [x]);
  }

  // ---------------------------------------------------------------------------------------------
  // Undoing the allocation of a block
  // ---------------------------------------------------------------------------------------------

  /** The lookup of the producer itself, after some of its blocks have been taken out again. */
  lemma UndoLookup(s: State, v: History, q: nat)
    requires BlockIndex.Inv(s.ix, v.iv) && q in v.iv.ent && v.iv.lo < v.iv.ins && v.iv.hi - Cur(s.ix).cap < v.iv.ins
    ensures var j := |s.ix.headers| - 1; var key := KeyAt(s.ix, j, Cur(s.ix).tail);
      key.Base? && EntryOf(s.ix, j, LookupSlot(Cur(s.ix), Cur(s.ix).tail, key.q, q)) == v.iv.ent[q]
    ensures v.iv.ent[q] < |s.ix.entries| && s.ix.entries[v.iv.ent[q]].key == Base(q)
  {
    assert Keyed(s.ix, v.iv, v.iv.ins - 1);
    CurSees(s.ix, v.iv, q);
    LookupIsRight(s.ix, v.iv, |s.ix.headers| - 1, Cur(s.ix).tail, q);
  }

  lemma UndoValueProd(s: State, v: History)
    requires s.prod.UndoValue? && s.prod.cur.At? && ProdOk(s.ix, s.blocks, s.tail, s.tailBlock, v, s.prod)
    requires AllMapped(s.ix, s.blocks, s.cons, s.head, v) && |v.place| == |s.blocks|
    ensures var q := s.prod.q; 
      && Mapped(s, v, q) && v.blk[q] == s.prod.cur.b < |s.blocks| && Blocks(s.tail) <= q < Blocks(s.tail) + |v.pend|
      && v.pend[q - Blocks(s.tail)] == s.prod.cur.b && (v.iv.open - {v.iv.ent[q]} == {})
      && ProdOk(SetValue(s.ix, v.iv.ent[q], Null), s.blocks, s.tail, s.tailBlock,
                UnindexedView(v, v.iv.ent[q], q, v.blk[q], Undone(q - Blocks(s.tail))), UndoTail(s.prod.c, s.prod.cur, q))
  {
    var q, m := s.prod.q, s.prod.q - Blocks(s.tail);
    assert BuiltAt(v.blk, v.pend, s.tail, m);
    assert MappedOk(s.ix, s.blocks, s.cons, s.head, v, q);
    var v' := UnindexedView(v, v.iv.ent[q], q, v.blk[q], Undone(m));
    forall i | 0 <= i < m + 1 ensures UndoneAt(v'.place, v.pend, i) && ClearedAt(v'.blk, s.tail, i) {
      if i < m { assert UndoneAt(v.place, v.pend, i) && ClearedAt(v.blk, s.tail, i); }
    }
    forall i | m + 1 <= i < |v.pend| ensures BuiltAt(v'.blk, v.pend, s.tail, i) { assert BuiltAt(v.blk, v.pend, s.tail, i); }
  }

  /** No consumer has claimed anything in a block beyond tailIndex. */
  lemma BeyondTail(s: State, v: History, q: nat)
    requires AllCons(s.ix, s.blocks, v, s.cons) && |v.own| == s.head <= s.tail && Blocks(s.tail) <= q
    ensures forall t :: 0 <= t < |s.cons| ==> !Wants(s.cons[t], q) && Overlap(q)(s.cons[t]) == 0 && !s.cons[t].ConsFault?
    ensures forall t :: 0 <= t < |s.cons| ==> s.cons[t].r.hi <= BLOCK_SIZE * q
    ensures Sum(s.cons, Overlap(q)) == 0
  {
    forall t | 0 <= t < |s.cons|
      ensures !Wants(s.cons[t], q) && Overlap(q)(s.cons[t]) == 0 && !s.cons[t].ConsFault? && s.cons[t].r.hi <= BLOCK_SIZE * q
    { assert ConsOk(s.ix, s.blocks, v, t, s.cons[t]); }
    SumZero(s.cons, Overlap(q));
  }

  lemma UndoConsumers(s: State, v: History, q: nat, p: Place)
    requires AllCons(s.ix, s.blocks, v, s.cons) && AllLive(s.blocks, s.head, v) && Mapped(s, v, q) && v.blk.Keys == v.iv.ent.Keys
    requires |v.own| == s.head <= s.tail == |v.log| && Blocks(s.tail) <= q && Shaped(s.ix, v.iv)
    ensures var ix', v' := SetValue(s.ix, v.iv.ent[q], Null), UnindexedView(v, v.iv.ent[q], q, v.blk[q], p);
      && AllCons(ix', s.blocks, v', s.cons) && AllLive(s.blocks, s.head, v') && Shaped(ix', v'.iv) && Cur(ix').cap == Cur(s.ix).cap
  {
    var ix', v' := SetValue(s.ix, v.iv.ent[q], Null), UnindexedView(v, v.iv.ent[q], q, v.blk[q], p);
    BeyondTail(s, v, q);
    UndoElements(s, v, q, p);
    forall t | 0 <= t < |s.cons| ensures ConsOk(ix', s.blocks, v', t, s.cons[t]) {
      assert ConsOk(s.ix, s.blocks, v, t, s.cons[t]);
      ConsStays(s.ix, s.blocks, v, ix', s.blocks, v', t, s.cons[t]);
    }
  }

  lemma UndoElements(s: State, v: History, q: nat, p: Place)
    requires AllLive(s.blocks, s.head, v) && Mapped(s, v, q) && s.tail == |v.log| && Blocks(s.tail) <= q
    ensures var v' := UnindexedView(v, v.iv.ent[q], q, v.blk[q], p);
      AllLive(s.blocks, s.head, v') && forall j :: 0 <= j < s.tail && HasElem(s.blocks, v, j) ==> HasElem(s.blocks, v', j)
  {
    var v' := UnindexedView(v, v.iv.ent[q], q, v.blk[q], p);
    forall j | 0 <= j < s.tail && HasElem(s.blocks, v, j) ensures HasElem(s.blocks, v', j) {}
    forall j | s.head <= j < |v.log| ensures HasElem(s.blocks, v', j) { assert HasElem(s.blocks, v, j); }
  }

  lemma UndoPlaced(s: State, v: History, q: nat, e: EntryId, i: nat, prod': Prod)
    requires AllPlaced(s.free, s.others, s.prod, s.cons, v) && s.prod.UndoValue? && prod'.UndoTail? && q in v.blk && v.blk[q] < |v.place|
    requires v.place[v.blk[q]] == Used(q) && i < |v.pend| && v.pend[i] == v.blk[q]
    ensures AllPlaced(s.free, s.others, prod', s.cons, UnindexedView(v, e, q, v.blk[q], Undone(i)))
  {
    var v' := UnindexedView(v, e, q, v.blk[q], Undone(i));
    assert PlaceOk(s.free, s.others, s.prod, s.cons, v, v.blk[q]);
    forall a | 0 <= a < |v.place| ensures PlaceOk(s.free, s.others, prod', s.cons, v', a) {
      assert PlaceOk(s.free, s.others, s.prod, s.cons, v, a);
    }
  }

  lemma UndoKeepsBody(s: State, v: History, q: nat)
    requires Body(s, v) && s.prod.UndoValue? && s.prod.cur.At? && q == s.prod.q
    requires Mapped(s, v, q) && Blocks(s.tail) <= q < Blocks(s.tail) + |v.pend|
    requires v.pend[q - Blocks(s.tail)] == v.blk[q] == s.prod.cur.b
    requires AllMapped(SetValue(s.ix, v.iv.ent[q], Null), s.blocks, s.cons, s.head,
                       UnindexedView(v, v.iv.ent[q], q, v.blk[q], Undone(q - Blocks(s.tail))))
    ensures Body(s.(ix := SetValue(s.ix, v.iv.ent[q], Null), prod := UndoTail(s.prod.c, s.prod.cur, q)),
                 UnindexedView(v, v.iv.ent[q], q, v.blk[q], Undone(q - Blocks(s.tail))))
  {
    var p, prod' := Undone(q - Blocks(s.tail)), UndoTail(s.prod.c, s.prod.cur, q);
    UndoValueProd(s, v);
    UndoConsumers(s, v, q, p);
    BeyondTail(s, v, q);
    assert v.place[v.blk[q]] == Used(q);
    UndoPlaced(s, v, q, v.iv.ent[q], q - Blocks(s.tail), prod');
  }

  lemma UndoShape(s: State, v: History, ok: bool, b: Block, junk: Ptr)
    requires BlockIndex.Inv(s.ix, v.iv) && s.prod.UndoValue? && s.prod.cur.At? && Enabled(s, Produce(ok, b, junk))
    requires ProdOk(s.ix, s.blocks, s.tail, s.tailBlock, v, s.prod) && Mapped(s, v, s.prod.q)
    requires v.iv.lo <= Blocks(s.tail) && v.iv.hi - Cur(s.ix).cap <= Blocks(s.tail) && v.blk.Keys == v.iv.ent.Keys
    ensures Produce1(s, ok, b, junk) ==
            s.(ix := SetValue(s.ix, v.iv.ent[s.prod.q], Null), prod := UndoTail(s.prod.c, s.prod.cur, s.prod.q))
  {
    UndoLookup(s, v, s.prod.q);
  }

  lemma StepUndoValue(s: State, v: History, ok: bool, b: Block, junk: Ptr) returns (v': History)
    requires Inv(s, v) && s.prod.UndoValue? && s.prod.cur.At? && Enabled(s, Produce(ok, b, junk))
    ensures Inv(Produce1(s, ok, b, junk), v') && v'.log == v.log
  {
    var q := s.prod.q;
    UndoValueProd(s, v);
    var p := Undone(q - Blocks(s.tail));
    UnindexedIndex(s, v, q, v.blk[q], p);
    UnindexedMapped(s, v, q, p);
    UndoKeepsBody(s, v, q);
    UndoShape(s, v, ok, b, junk);
    v' := UnindexedView(v, v.iv.ent[q], q, v.blk[q], p);
  }

  // ---------------------------------------------------------------------------------------------
  // A new block comes into use
  // ---------------------------------------------------------------------------------------------

  function AddedView(v: History, e: EntryId, q: nat, b: Block, w: nat): History
    requires b < |v.place|
  {
    v.(iv := ValueView(v.iv, e, q, At(b)), blk := v.blk[q := b], place := v.place[b := Used(q)], pend := v.pend + [b], w := w)
  }

  /** The block before the new one, if any, points to it. */
  function Linked(s: State, c: Call, b: Block): seq<Mem> {
    if (CellOf(s.tail) == 0 && c.first.Null?) || !s.tailBlock.At? || s.tailBlock.b >= |s.blocks| then s.blocks
    else s.blocks[s.tailBlock.b := s.blocks[s.tailBlock.b].(next := At(b))]
  }

  lemma AddedIndex(s: State, v: History, e: EntryId, b: Block, w: nat)
    requires BlockIndex.Inv(s.ix, v.iv) && OpenAt(s.ix, v, e, v.iv.ins - 1) && v.iv.lo < v.iv.ins && v.iv.hi - Cur(s.ix).cap < v.iv.ins
    requires b < |v.place| && v.iv.ins - 1 !in v.iv.ent
    ensures var ix', v' := SetValue(s.ix, e, At(b)), AddedView(v, e, v.iv.ins - 1, b, w);
      && BlockIndex.Inv(ix', v'.iv) && v'.iv == v.iv.(ent := v.iv.ent[v.iv.ins - 1 := e], open := {}) && Extends(s.ix, v.iv, ix', v'.iv)
      && Cur(ix').cap == Cur(s.ix).cap && (forall q :: q in v.iv.ent ==> v.iv.ent[q] != e)
  {
    StoreValueKeepsInv(s.ix, v.iv, e, v.iv.ins - 1, At(b));
    forall q | q in v.iv.ent ensures v.iv.ent[q] != e { assert InUse(s.ix, v.iv, q); }
  }

  lemma AddedMapped(s: State, v: History, e: EntryId, q: nat, b: Block, blocks': seq<Mem>, w: nat)
    requires AllMapped(s.ix, s.blocks, s.cons, s.head, v) && AllCons(s.ix, s.blocks, v, s.cons) && |v.own| == s.head <= s.tail
    requires Blocks(s.tail) <= q && q !in v.blk && b < |s.blocks| == |v.place| && v.place[b].Held? && s.blocks[b].done == 0
    requires e < |s.ix.entries| && (forall q :: q in v.iv.ent ==> v.iv.ent[q] != e)
    requires SameDone(s.blocks, blocks')
    ensures AllMapped(SetValue(s.ix, e, At(b)), blocks', s.cons, s.head, AddedView(v, e, q, b, w))
  {
    var ix', v' := SetValue(s.ix, e, At(b)), AddedView(v, e, q, b, w);
    BeyondTail(s, v, q);
    forall p | p in v'.blk ensures MappedOk(ix', blocks', s.cons, s.head, v', p) {
      if p != q { assert MappedOk(s.ix, s.blocks, s.cons, s.head, v, p); }
    }
  }

  lemma AddedConsumers(s: State, v: History, e: EntryId, q: nat, b: Block, blocks': seq<Mem>, w: nat)
    requires AllCons(s.ix, s.blocks, v, s.cons) && AllLive(s.blocks, s.head, v) && v.blk.Keys == v.iv.ent.Keys
    requires Shaped(s.ix, v.iv) && e < |s.ix.entries| && q !in v.blk && b < |s.blocks| == |v.place| && v.place[b].Held?
    requires SameCells(s.blocks, blocks') && Extends(s.ix, v.iv, SetValue(s.ix, e, At(b)), AddedView(v, e, q, b, w).iv)
    ensures var ix', v' := SetValue(s.ix, e, At(b)), AddedView(v, e, q, b, w);
      AllCons(ix', blocks', v', s.cons) && AllLive(blocks', s.head, v')
  {
    var ix', v' := SetValue(s.ix, e, At(b)), AddedView(v, e, q, b, w);
    forall j | HasElem(s.blocks, v, j) ensures HasElem(blocks', v', j) {}
    forall j | s.head <= j < |v.log| ensures HasElem(blocks', v', j) { assert HasElem(s.blocks, v, j); }
    forall t | 0 <= t < |s.cons| ensures ConsOk(ix', blocks', v', t, s.cons[t]) {
      assert ConsOk(s.ix, s.blocks, v, t, s.cons[t]);
      ConsStays(s.ix, s.blocks, v, ix', blocks', v', t, s.cons[t]);
    }
  }

  predicate SameCells(blocks: seq<Mem>, blocks': seq<Mem>) {
    |blocks'| == |blocks| && forall b :: 0 <= b < |blocks| ==> blocks'[b].cells == blocks[b].cells
  }

  lemma AddedPlaced(s: State, v: History, e: EntryId, q: nat, b: Block, prod': Prod, w: nat)
    requires AllPlaced(s.free, s.others, s.prod, s.cons, v) && s.prod.StoreValue? && s.prod.b == b < |v.place| && v.place[b].Held? && q !in v.blk
    ensures AllPlaced(s.free, s.others, prod', s.cons, AddedView(v, e, q, b, w))
  {
    var v' := AddedView(v, e, q, b, w);
    assert PlaceOk(s.free, s.others, s.prod, s.cons, v, b);
    forall a | 0 <= a < |v.place| ensures PlaceOk(s.free, s.others, prod', s.cons, v', a) {
      assert PlaceOk(s.free, s.others, s.prod, s.cons, v, a);
    }
  }

  /** The chain of the blocks of the call, one longer. */
  lemma AddedChain(s: State, v: History, c: Call, b: Block)
    requires AllMapped(s.ix, s.blocks, s.cons, s.head, v) && Building(s.blocks, s.tailBlock, v.blk, v.pend, s.tail, c)
    requires b < |s.blocks| == |v.place| && v.place[b].Held? && s.blocks[b].next == Null
    ensures var pend', blocks' := v.pend + [b], Linked(s, c, b);
      && Chain(blocks', pend', 0) && StartLinked(blocks', pend', s.tail, c)
      && SameDone(s.blocks, blocks') && SameCells(s.blocks, blocks')
      && (CellOf(s.tail) != 0 || c.first.At? ==> s.tailBlock.At? && s.tailBlock.b < |s.blocks|)
  {
    var pend', blocks', n := v.pend + [b], Linked(s, c, b), |v.pend|;
    if CellOf(s.tail) != 0 { assert MappedOk(s.ix, s.blocks, s.cons, s.head, v, Blocks(s.tail) - 1); }
    if n > 0 {
      assert BuiltAt(v.blk, v.pend, s.tail, n - 1) && MappedOk(s.ix, s.blocks, s.cons, s.head, v, Blocks(s.tail) + n - 1);
    }
    forall i | 0 <= i < n + 1 ensures LinkOk(blocks', pend', i) {
      if i < n {
        assert LinkOk(s.blocks, v.pend, i) && BuiltAt(v.blk, v.pend, s.tail, i);
        assert MappedOk(s.ix, s.blocks, s.cons, s.head, v, Blocks(s.tail) + i);
      }
    }
  }

  lemma AddedBuilding(s: State, v: History, c: Call, b: Block, q: nat)
    requires AllMapped(s.ix, s.blocks, s.cons, s.head, v) && Building(s.blocks, s.tailBlock, v.blk, v.pend, s.tail, c) && c.left > 0
    requires b < |s.blocks| == |v.place| && v.place[b].Held? && s.blocks[b].next == Null
    requires q == Blocks(s.tail) + |v.pend| && q !in v.blk
    ensures var c' := c.(first := if c.first.Null? then At(b) else c.first, left := c.left - 1);
      Building(Linked(s, c, b), At(b), v.blk[q := b], v.pend + [b], s.tail, c')
  {
    AddedChain(s, v, c, b);
    var blk', pend' := v.blk[q := b], v.pend + [b];
    forall i | 0 <= i < |v.pend| + 1 ensures BuiltAt(blk', pend', s.tail, i) {
      assert i < |v.pend| ==> BuiltAt(v.blk, v.pend, s.tail, i);
    }
  }

  function AddedCall(c: Call, b: Block): Call
    requires c.left > 0
  { c.(first := if c.first.Null? then At(b) else c.first, left := c.left - 1) }

  /** After the new block: allocate the next one, or start writing. */
  lemma StoreValueProd(s: State, v: History, ok: bool, b0: Block, junk: Ptr, q: nat) returns (tb: Ptr, prod': Prod, w: nat)
    requires s.prod.StoreValue? && Enabled(s, Produce(ok, b0, junk)) && WellFormed(s.ix) && AllCells(s.blocks)
    requires ProdOk(s.ix, s.blocks, s.tail, s.tailBlock, v, s.prod) && AllMapped(s.ix, s.blocks, s.cons, s.head, v)
    requires |v.place| == |s.blocks| && q == v.iv.ins - 1 && q !in v.blk && |v.log| == s.tail
    ensures var e, b := s.prod.e, s.prod.b;
      && b < |s.blocks| && e < |s.ix.entries| && v.place[b].Held? && s.blocks[b].done == 0 && q == Blocks(s.tail) + |v.pend|
      && var ix', v', blocks' := SetValue(s.ix, e, At(b)), AddedView(v, e, q, b, w), Linked(s, s.prod.c, b);
      && Produce1(s, ok, b0, junk) == s.(ix := ix', blocks := blocks', tailBlock := tb, prod := prod')
      && Written(prod', s.tail) == s.tail && SameDone(s.blocks, blocks') && SameCells(s.blocks, blocks')
      && ProdOk(ix', blocks', s.tail, tb, v', prod')
  {
    var e, b, c := s.prod.e, s.prod.b, s.prod.c;
    var c' := AddedCall(c, b);
    AddedChain(s, v, c, b);
    AddedBuilding(s, v, c, b, q);
    var s1 := s.(ix := SetValue(s.ix, e, At(b)), blocks := Linked(s, c, b), tailBlock := At(b));
    w := BlockOf(s.tail);
    if c'.left > 0 {
      tb, prod' := At(b), Check(c');
    } else {
      BeginWriteOk(s1, AddedView(v, e, q, b, 0), c');
      tb, prod' := BeginWrite(s1, c').tailBlock, BeginWrite(s1, c').prod;
    }
  }

  lemma AddedKeepsBody(s: State, v: History, q: nat, tb: Ptr, prod': Prod, w: nat, e: EntryId, b: Block, blocks': seq<Mem>)
    requires Body(s, v) && s.prod.StoreValue? && e == s.prod.e < |s.ix.entries| && b == s.prod.b < |s.blocks| && q !in v.blk
    requires v.place[b].Held? && s.blocks[b].done == 0 && q == Blocks(s.tail) + |v.pend|
    requires SameDone(s.blocks, blocks') && SameCells(s.blocks, blocks') && Written(prod', s.tail) == s.tail
    requires ProdOk(SetValue(s.ix, e, At(b)), blocks', s.tail, tb, AddedView(v, e, q, b, w), prod')
    requires (forall q :: q in v.iv.ent ==> v.iv.ent[q] != e) && Extends(s.ix, v.iv, SetValue(s.ix, e, At(b)), AddedView(v, e, q, b, w).iv)
    ensures Body(s.(ix := SetValue(s.ix, e, At(b)), blocks := blocks', tailBlock := tb, prod := prod'), AddedView(v, e, q, b, w))
  {
    AddedMapped(s, v, e, q, b, blocks', w);
    AddedConsumers(s, v, e, q, b, blocks', w);
    AddedPlaced(s, v, e, q, b, prod', w);
  }

  /** value.store: the block can be found from now on. */
  lemma StepStoreValue(s: State, v: History, ok: bool, b0: Block, junk: Ptr) returns (v': History)
    requires Inv(s, v) && s.prod.StoreValue? && Enabled(s, Produce(ok, b0, junk))
    ensures Inv(Produce1(s, ok, b0, junk), v') && v'.log == v.log
  {
    var e, b, q := s.prod.e, s.prod.b, v.iv.ins - 1;
    var tb, prod', w := StoreValueProd(s, v, ok, b0, junk, q);
    AddedIndex(s, v, e, b, w);
    AddedKeepsBody(s, v, q, tb, prod', w, e, b, Linked(s, s.prod.c, b));
    v' := AddedView(v, e, q, b, w);
  }

  // ---------------------------------------------------------------------------------------------
  // Every step
  // ---------------------------------------------------------------------------------------------

  lemma StepAllocate(s: State, v: History, ok: bool, b: Block, junk: Ptr) returns (v': History)
    requires Inv(s, v) && Enabled(s, Produce(ok, b, junk)) && Builds(s.prod)
    ensures Inv(Produce1(s, ok, b, junk), v') && v'.log == v.log
  {
    match s.prod {
      case Check(_) => v' := StepCheck(s, v, ok, b, junk);
      case NeedIndex(_) => v' := StepNeedIndex(s, v, ok, b, junk);
      case StoreKey(_) => v' := StepStoreKey(s, v, ok, b, junk);
      case StoreTail(_, _) => v' := StepStoreTail(s, v, ok, b, junk);
      case GetBlock(_, _) => if ok { v' := StepGotBlock(s, v, ok, b, junk); } else { v' := StepNoBlock(s, v, ok, b, junk); }
      case StoreValue(_, _, _) => v' := StepStoreValue(s, v, ok, b, junk);
      case DropTail(_, _) => v' := StepDropTail(s, v, ok, b, junk);
      case DropValue(_, _) => v' := StepDropValue(s, v, ok, b, junk);
    }
  }

  lemma StepUndo(s: State, v: History, ok: bool, b: Block, junk: Ptr) returns (v': History)
    requires Inv(s, v) && Enabled(s, Produce(ok, b, junk)) && Undoes(s.prod)
    ensures Inv(Produce1(s, ok, b, junk), v') && v'.log == v.log
  {
    match s.prod {
      case UndoValue(_, cur, _) => if cur.At? { v' := StepUndoValue(s, v, ok, b, junk); } else { v' := StepUndone(s, v, ok, b, junk); }
      case UndoTail(_, _, _) => v' := StepUndoTail(s, v, ok, b, junk);
      case FreeChain(_, cur) => if cur.At? { v' := StepFreed(s, v, ok, b, junk); } else { v' := StepFailed(s, v, ok, b, junk); }
    }
  }

  lemma StepProduce(s: State, v: History, ok: bool, b: Block, junk: Ptr) returns (v': History)
    requires Inv(s, v) && Enabled(s, Produce(ok, b, junk))
    ensures Inv(Produce1(s, ok, b, junk), v') && v.log <= v'.log
  {
    if Builds(s.prod) { v' := StepAllocate(s, v, ok, b, junk); }
    else if Undoes(s.prod) { v' := StepUndo(s, v, ok, b, junk); }
    else if s.prod.Publish? { v' := StepPublish(s, v, ok, b, junk); }
    else if s.prod.i < s.prod.stop { v' := StepWrite(s, v, ok, b, junk); }
    else if s.tailBlock == s.prod.end { v' := StepAllWritten(s, v, ok, b, junk); }
    else { v' := StepBlockWritten(s, v, ok, b, junk); }
  }

  lemma StepConsume(s: State, v: History, t: Tid) returns (v': History)
    requires Inv(s, v) && Enabled(s, Consume(t))
    ensures Inv(Consume1(s, t), v') && v.log <= v'.log
  {
    v' := v;
    if LooksUp(s.cons[t]) {
      StepLookup(s, v, t);
    } else {
      match s.cons[t] {
        case Copy(r, _, _, _, from) => if r.i < Stop(from, r.hi) { StepCopy(s, v, t); } else { StepCopied(s, v, t); }
        case SetEmpty(_, _, _, _, _) => v' := StepSetEmpty(s, v, t);
        case Unindex(_, _, _, _) => v' := StepUnindex(s, v, t);
        case FreeBlock(_, _, _, _) => v' := StepFreeBlock(s, v, t);
      }
    }
  }

  /** Every step keeps the invariant, and elements are only ever appended. */
  lemma StepKeepsInv(s: State, v: History, op: Op) returns (v': History)
    requires Inv(s, v) && Enabled(s, op)
    ensures Inv(Next(s, op), v') && v.log <= v'.log
  {
    match op {
      case StartEnqueue(items) => v' := StepStart(s, v, items);
      case Produce(ok, b, junk) => v' := StepProduce(s, v, ok, b, junk);
      case Claim(t, n) => v' := StepClaim(s, v, t, n);
      case Consume(t) => v' := StepConsume(s, v, t);
      case _ => v' := StepOthers(s, v, op);
    }
  }
}
