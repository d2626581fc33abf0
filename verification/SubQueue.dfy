/** One implicit producer's sub-queue: blocks of BLOCK_SIZE elements, the block index over them, the
    producer that appends one or many elements all or nothing, and any number of consumers that take
    the ranges of indices they have claimed on headIndex.  Each shared load, store and fetch_add is a
    step; a consumer keeps the index header and the tail it has read, however old they become.

    How many elements a consumer may claim is decided by module DequeueCounters; module Producer puts
    the two together.  The blocks not used here form the pool, or belong to other producers, which
    may do anything with them. */
module SubQueue {
  import opened BlockIndex
  import opened IndexWords
  import opened Sums

  type Tid = nat
  type Elem = string

  const BLOCK_SIZE: nat := 32

  /** The width of index_t. */
  const INDEX_BITS: nat := 64

  datatype Cell = Empty | Full(x: Elem)

  /** A block: its elements, elementsCompletelyDequeued, and next. */
  datatype Mem = Mem(cells: seq<Cell>, done: nat, next: Ptr)

  /** The local variables of enqueue_bulk: the elements, startBlock, firstAllocatedBlock, and the number
      of blocks still to allocate (blockBaseDiff / BLOCK_SIZE).  enqueue is the case of one element. */
  datatype Call = Call(items: seq<Elem>, start: Ptr, first: Ptr, left: nat)

  datatype Prod =
    | Ready(ok: bool)                                  // result of the last call
    | Check(c: Call)                                   // room check, look at the next index slot
    | NeedIndex(c: Call)                               // new_block_index
    | StoreKey(c: Call)
    | StoreTail(c: Call, e: EntryId)
    | GetBlock(c: Call, e: EntryId)                    // requisition_block, reset_empty
    | StoreValue(c: Call, e: EntryId, b: Block)        // value.store, link the block
    | Write(c: Call, end: Ptr, i: nat, stop: nat)      // construct element i, or go to the next block
    | Publish(c: Call)                                 // tailIndex.store
    | DropTail(c: Call, e: EntryId)                    // no block: rewind_block_index_tail
    | DropValue(c: Call, e: EntryId)                   //   value.store(nullptr)
    | UndoValue(c: Call, cur: Ptr, q: nat)             // revert the blocks allocated so far
    | UndoTail(c: Call, cur: Ptr, q: nat)
    | FreeChain(c: Call, cur: Ptr)                     // add_blocks_to_free_list
    | ProdFault                                        // an assertion failed

  /** A claimed range first..hi: elements first..i have been moved out, giving got. */
  datatype Range = Range(first: nat, i: nat, hi: nat, got: seq<Elem>)

  datatype Cons =
    | Idle(r: Range)                                   // the last claim, finished
    | LoadHeader(r: Range)                             // blockIndex.load
    | LoadTail(r: Range, k: nat)                       // localBlockIndex->tail.load
    | LoadKey(r: Range, k: nat, tail: nat)             // key of the entry at that tail
    | LoadValue(r: Range, k: nat, slot: nat)           // entry->value.load
    | Copy(r: Range, k: nat, slot: nat, b: Block, from: nat)      // move element r.i out
    | SetEmpty(r: Range, k: nat, slot: nat, b: Block, from: nat)  // elementsCompletelyDequeued.fetch_add
    | Unindex(r: Range, k: nat, slot: nat, b: Block)   // entry->value.store(nullptr)
    | FreeBlock(r: Range, k: nat, slot: nat, b: Block) // add_block_to_free_list
    | ConsFault

  datatype State = State(
    ix: Index, tail: nat, head: nat, blocks: seq<Mem>, free: set<Block>, others: set<Block>,
    tailBlock: Ptr, prod: Prod, cons: seq<Cons>)

  datatype Op =
    | StartEnqueue(items: seq<Elem>)
    | Produce(ok: bool, b: Block, junk: Ptr)   // ok, b and junk: what allocation gives, if there is any
    | Claim(t: Tid, n: nat)                    // headIndex.fetch_add(n)
    | Consume(t: Tid)
    | OtherTakes(b: Block)
    | OtherGives(b: Block)
    | OtherWrites(b: Block, m: Mem)

  predicate Enabled(s: State, op: Op) {
    match op
    case StartEnqueue(_) => s.prod.Ready?
    case Produce(ok, b, _) => !s.prod.Ready? && !s.prod.ProdFault? && (s.prod.GetBlock? && ok ==> b in s.free && b < |s.blocks|)
    case Claim(t, n) => t < |s.cons| && s.cons[t].Idle? && n > 0 && s.head + n <= s.tail
    case Consume(t) => t < |s.cons| && !s.cons[t].Idle? && !s.cons[t].ConsFault?
    case OtherTakes(b) => b in s.free
    case OtherGives(b) => b in s.others
    case OtherWrites(b, m) => b in s.others && b < |s.blocks| && |m.cells| == BLOCK_SIZE
  }

  /** The number of blocks that hold the first n elements. */
  function Blocks(n: nat): (q: nat)
    ensures n <= BLOCK_SIZE * q < n + BLOCK_SIZE
  { (n + BLOCK_SIZE - 1) / BLOCK_SIZE }

  /** The block that holds element i, and its place there. */
  function BlockOf(i: nat): (q: nat)
    ensures BLOCK_SIZE * q <= i < BLOCK_SIZE * q + BLOCK_SIZE
  { i / BLOCK_SIZE }

  function CellOf(i: nat): (c: nat)
    ensures c < BLOCK_SIZE && i == BLOCK_SIZE * BlockOf(i) + c
  { i % BLOCK_SIZE }

  /** The index where the block of i ends, but not beyond end. */
  function Stop(i: nat, end: nat): nat { Min(BLOCK_SIZE * BlockOf(i) + BLOCK_SIZE, end) }

  function EntryOf(ix: Index, k: nat, slot: nat): EntryId {
    if k < |ix.headers| && slot < |ix.headers[k].index| then ix.headers[k].index[slot] else |ix.entries|
  }

  function KeyAt(ix: Index, k: nat, slot: nat): Key {
    var e := EntryOf(ix, k, slot);
    if e < |ix.entries| then ix.entries[e].key else Invalid
  }

  function ValueAt(ix: Index, k: nat, slot: nat): Ptr {
    var e := EntryOf(ix, k, slot);
    if e < |ix.entries| then ix.entries[e].value else Null
  }

  predicate ValidBlock(s: State, p: Ptr) { p.At? && p.b < |s.blocks| && |s.blocks[p.b].cells| == BLOCK_SIZE }

  /** The check before a new block is taken, on words: head is before base + BLOCK_SIZE. */
  predicate HasRoom(head: nat, base: nat, w: nat)
    requires w > 0
  { CircularLess(head, Word(base + BLOCK_SIZE, w), w) }

  /** The room check for the next block of call c, which starts where the blocks taken so far end. */
  predicate RoomFor(head: nat, tail: nat, c: Call) {
    HasRoom(Word(head, INDEX_BITS), Word(BLOCK_SIZE * (Blocks(tail + |c.items|) - c.left), INDEX_BITS), INDEX_BITS)
  }

  /** All blocks are allocated: start writing at the old tail. */
  function BeginWrite(s: State, c: Call): State {
    s.(tailBlock := if CellOf(s.tail) == 0 && c.first.At? then c.first else c.start,
       prod := Write(c, s.tailBlock, s.tail, Stop(s.tail, s.tail + |c.items|)))
  }

  function Produce1(s: State, ok: bool, b: Block, junk: Ptr): State
    requires Enabled(s, Produce(ok, b, junk)) && WellFormed(s.ix)
  {
    var j := |s.ix.headers| - 1;
    match s.prod
    case Check(c) =>
      if !RoomFor(s.head, s.tail, c) then s.(prod := UndoValue(c, c.first, Blocks(s.tail)))
      else
        var e := EntryOf(s.ix, j, NewTail(s.ix));
        if e < |s.ix.entries| && Vacant(s.ix, e) then s.(prod := StoreKey(c)) else s.(prod := NeedIndex(c))
    case NeedIndex(c) =>
      if ok then
        var ix := Grow(s.ix, junk);
        s.(ix := ix, prod := if KeyAt(ix, j + 1, NewTail(ix)).Invalid? then StoreKey(c) else ProdFault)
      else s.(prod := UndoValue(c, c.first, Blocks(s.tail)))
    case StoreKey(c) =>
      var e := EntryOf(s.ix, j, NewTail(s.ix));
      if e < |s.ix.entries| && c.left > 0 && Blocks(s.tail + |c.items|) >= c.left
      then s.(ix := SetKey(s.ix, e, Blocks(s.tail + |c.items|) - c.left), prod := StoreTail(c, e))
      else s.(prod := ProdFault)
    case StoreTail(c, e) => s.(ix := SetTail(s.ix, NewTail(s.ix)), prod := GetBlock(c, e))
    case GetBlock(c, e) =>
      if ok then s.(free := s.free - {b}, blocks := s.blocks[b := s.blocks[b].(done := 0, next := Null)], prod := StoreValue(c, e, b))
      else s.(prod := DropTail(c, e))
    case StoreValue(c, e, b') =>
      if e < |s.ix.entries| && c.left > 0 && ((CellOf(s.tail) == 0 && c.first.Null?) || ValidBlock(s, s.tailBlock)) then
        var c' := c.(first := if c.first.Null? then At(b') else c.first, left := c.left - 1);
        var s' := s.(ix := SetValue(s.ix, e, At(b')), tailBlock := At(b'),
                     blocks := if CellOf(s.tail) == 0 && c.first.Null? then s.blocks
                               else s.blocks[s.tailBlock.b := s.blocks[s.tailBlock.b].(next := At(b'))]);
        if c'.left > 0 then s'.(prod := Check(c')) else BeginWrite(s', c')
      else s.(prod := ProdFault)
    case Write(c, end, i, stop) =>
      if i < stop then
        if ValidBlock(s, s.tailBlock) && s.tail <= i < s.tail + |c.items| then
          var m := s.blocks[s.tailBlock.b];
          s.(blocks := s.blocks[s.tailBlock.b := m.(cells := m.cells[CellOf(i) := Full(c.items[i - s.tail])])],
             prod := Write(c, end, i + 1, stop))
        else s.(prod := ProdFault)
      else if s.tailBlock == end then s.(prod := if i == s.tail + |c.items| then Publish(c) else ProdFault)
      else if ValidBlock(s, s.tailBlock)
      then s.(tailBlock := s.blocks[s.tailBlock.b].next, prod := Write(c, end, i, Stop(i, s.tail + |c.items|)))
      else s.(prod := ProdFault)
    case Publish(c) => s.(tail := s.tail + |c.items|, prod := Ready(true))
    case DropTail(c, e) => s.(ix := Rewind(s.ix), prod := DropValue(c, e))
    case DropValue(c, e) =>
      if e < |s.ix.entries| then s.(ix := SetValue(s.ix, e, Null), prod := UndoValue(c, c.first, Blocks(s.tail)))
      else s.(prod := ProdFault)
    case UndoValue(c, cur, q) =>
      if cur.Null? then s.(prod := FreeChain(c, c.first))
      else
        var key := KeyAt(s.ix, j, Cur(s.ix).tail);
        if key.Invalid? then s.(prod := ProdFault)
        else
          var e := EntryOf(s.ix, j, LookupSlot(Cur(s.ix), Cur(s.ix).tail, key.q, q));
          if e < |s.ix.entries| && s.ix.entries[e].key == Base(q) && s.ix.entries[e].value.At?
          then s.(ix := SetValue(s.ix, e, Null), prod := UndoTail(c, cur, q))
          else s.(prod := ProdFault)
    case UndoTail(c, cur, q) =>
      if ValidBlock(s, cur) then s.(ix := Rewind(s.ix), prod := UndoValue(c, s.blocks[cur.b].next, q + 1))
      else s.(prod := ProdFault)
    case FreeChain(c, cur) =>
      if cur.Null? then s.(tailBlock := c.start, prod := Ready(false))
      else if ValidBlock(s, cur) then s.(free := s.free + {cur.b}, prod := FreeChain(c, s.blocks[cur.b].next))
      else s.(prod := ProdFault)
  }

  /** After a block: the next slot of the same header, or the end of the call. */
  function NextBlock(s: State, r: Range, k: nat, slot: nat): Cons {
    if r.i >= r.hi then Idle(r)
    else if k < |s.ix.headers| && s.ix.headers[k].cap > 0 then LoadValue(r, k, (slot + 1) % s.ix.headers[k].cap)
    else ConsFault
  }

  function Consume1(s: State, t: Tid): State
    requires Enabled(s, Consume(t)) && WellFormed(s.ix)
  {
    match s.cons[t]
    case LoadHeader(r) => s.(cons := s.cons[t := LoadTail(r, |s.ix.headers| - 1)])
    case LoadTail(r, k) =>
      s.(cons := s.cons[t := if k < |s.ix.headers| then LoadKey(r, k, s.ix.headers[k].tail) else ConsFault])
    case LoadKey(r, k, tail) =>
      var key := KeyAt(s.ix, k, tail);
      s.(cons := s.cons[t := if k < |s.ix.headers| && s.ix.headers[k].cap > 0 && key.Base?
                             then LoadValue(r, k, LookupSlot(s.ix.headers[k], tail, key.q, BlockOf(r.i))) else ConsFault])
    case LoadValue(r, k, slot) =>
      var value := ValueAt(s.ix, k, slot);
      s.(cons := s.cons[t := if value.At? && KeyAt(s.ix, k, slot) == Base(BlockOf(r.i))
                             then Copy(r, k, slot, value.b, r.i) else ConsFault])
    case Copy(r, k, slot, b, from) =>
      if r.i < Stop(from, r.hi) then
        if ValidBlock(s, At(b)) && s.blocks[b].cells[CellOf(r.i)].Full? then
          var m := s.blocks[b];
          s.(blocks := s.blocks[b := m.(cells := m.cells[CellOf(r.i) := Empty])],
             cons := s.cons[t := Copy(r.(i := r.i + 1, got := r.got + [m.cells[CellOf(r.i)].x]), k, slot, b, from)])
        else s.(cons := s.cons[t := ConsFault])
      else s.(cons := s.cons[t := SetEmpty(r, k, slot, b, from)])
    case SetEmpty(r, k, slot, b, from) =>
      if b < |s.blocks| && from <= r.i && s.blocks[b].done + (r.i - from) <= BLOCK_SIZE then
        var done := s.blocks[b].done + (r.i - from);
        s.(blocks := s.blocks[b := s.blocks[b].(done := done)],
           cons := s.cons[t := if done == BLOCK_SIZE then Unindex(r, k, slot, b) else NextBlock(s, r, k, slot)])
      else s.(cons := s.cons[t := ConsFault])
    case Unindex(r, k, slot, b) =>
      var e := EntryOf(s.ix, k, slot);
      if e < |s.ix.entries| then s.(ix := SetValue(s.ix, e, Null), cons := s.cons[t := FreeBlock(r, k, slot, b)])
      else s.(cons := s.cons[t := ConsFault])
    case FreeBlock(r, k, slot, b) => s.(free := s.free + {b}, cons := s.cons[t := NextBlock(s, r, k, slot)])
  }

  function Next(s: State, op: Op): State
    requires Enabled(s, op) && WellFormed(s.ix)
  {
    match op
    case StartEnqueue(items) =>
      var c := Call(items, s.tailBlock, Null, Blocks(s.tail + |items|) - Blocks(s.tail));
      if c.left > 0 then s.(prod := Check(c)) else BeginWrite(s, c)
    case Produce(ok, b, junk) => Produce1(s, ok, b, junk)
    case Claim(t, n) =>
      s.(head := s.head + n, cons := s.cons[t := LoadHeader(Range(s.head, s.head, s.head + n, []))])
    case Consume(t) => Consume1(s, t)
    case OtherTakes(b) => s.(free := s.free - {b}, others := s.others + {b})
    case OtherGives(b) => s.(free := s.free + {b}, others := s.others - {b})
    case OtherWrites(b, m) => s.(blocks := s.blocks[b := m])
  }

  // ---------------------------------------------------------------------------------------------
  // The sub-queue in place
  // ---------------------------------------------------------------------------------------------

  class ImplicitProducer {
    var ix: Index
    var tailIndex: nat
    var headIndex: nat
    var blocks: seq<Mem>
    var free: set<Block>
    var others: set<Block>
    var tailBlock: Ptr
    var prod: Prod
    var cons: seq<Cons>

    ghost function Snapshot(): State
      reads this
    {
      State(ix, tailIndex, headIndex, blocks, free, others, tailBlock, prod, cons)
    }

    constructor (pool: seq<Mem>, available: set<Block>, threads: nat, capacity: nat, junk: Ptr)
      requires capacity > 0
      ensures ix == Fresh(capacity, junk) && tailIndex == headIndex == 0 && tailBlock == Null && prod == Ready(true)
      ensures blocks == pool && free == available && others == {}
      ensures |cons| == threads && forall t :: 0 <= t < threads ==> cons[t] == Idle(Range(0, 0, 0, []))
    {
      ix, tailIndex, headIndex, tailBlock, prod := Fresh(capacity, junk), 0, 0, Null, Ready(true);
      blocks, free, others := pool, available, {};
      cons := seq(threads, _ => Idle(Range(0, 0, 0, [])));
    }

    method StartWriting(c: Call)
      modifies this
      ensures Snapshot() == BeginWrite(old(Snapshot()), c)
    {
      prod := Write(c, tailBlock, tailIndex, Stop(tailIndex, tailIndex + |c.items|));
      tailBlock := if CellOf(tailIndex) == 0 && c.first.At? then c.first else c.start;
    }

    method Enqueue(items: seq<Elem>)
      requires WellFormed(ix) && prod.Ready?
      modifies this
      ensures Snapshot() == Next(old(Snapshot()), StartEnqueue(items))
    {
      var c := Call(items, tailBlock, Null, Blocks(tailIndex + |items|) - Blocks(tailIndex));
      if c.left > 0 { prod := Check(c); } else { StartWriting(c); }
    }

    /** One instruction of the producer. */
    method ProducerStep(ok: bool, b: Block, junk: Ptr)
      requires WellFormed(ix) && Enabled(Snapshot(), Produce(ok, b, junk))
      modifies this
      ensures Snapshot() == Next(old(Snapshot()), Produce(ok, b, junk))
    {
      var j := |ix.headers| - 1;
      match prod {
        case Check(c) =>
          CheckStep(c);
        case NeedIndex(c) =>
          GrowStep(c, ok, junk);
        case StoreKey(c) =>
          var e := EntryOf(ix, j, NewTail(ix));
          if e < |ix.entries| && c.left > 0 && Blocks(tailIndex + |c.items|) >= c.left {
            ix := SetKey(ix, e, Blocks(tailIndex + |c.items|) - c.left);
            prod := StoreTail(c, e);
          } else {
            prod := ProdFault;
          }
        case StoreTail(c, e) =>
          ix := SetTail(ix, NewTail(ix));
          prod := GetBlock(c, e);
        case GetBlock(c, e) =>
          if ok {
            free := free - {b};
            blocks := blocks[b := blocks[b].(done := 0, next := Null)];
            prod := StoreValue(c, e, b);
          } else {
            prod := DropTail(c, e);
          }
        case StoreValue(c, e, b') =>
          AddBlock(c, e, b');
        case Write(c, end, i, stop) =>
          WriteStep(c, end, i, stop);
        case Publish(c) =>
          tailIndex := tailIndex + |c.items|;
          prod := Ready(true);
        case DropTail(c, e) =>
          ix := Rewind(ix);
          prod := DropValue(c, e);
        case DropValue(c, e) =>
          if e < |ix.entries| {
            ix := SetValue(ix, e, Null);
            prod := UndoValue(c, c.first, Blocks(tailIndex));
          } else {
            prod := ProdFault;
          }
        case UndoValue(c, cur, q) =>
          UndoStep(c, cur, q);
        case UndoTail(c, cur, q) =>
          if Valid(cur) {
            ix := Rewind(ix);
            prod := UndoValue(c, blocks[cur.b].next, q + 1);
          } else {
            prod := ProdFault;
          }
        case FreeChain(c, cur) =>
          FreeStep(c, cur);
      }
    }

    /** The room check, and the look at the next slot of the index. */
    method CheckStep(c: Call)
      requires WellFormed(ix) && prod == Check(c)
      modifies this
      ensures Snapshot() == Next(old(Snapshot()), Produce(true, 0, Null))
    {
      if !RoomFor(headIndex, tailIndex, c) {
        prod := UndoValue(c, c.first, Blocks(tailIndex));
      } else {
        var e := EntryOf(ix, |ix.headers| - 1, NewTail(ix));
        if e < |ix.entries| && Vacant(ix, e) { prod := StoreKey(c); } else { prod := NeedIndex(c); }
      }
    }

    /** new_block_index, which may fail. */
    method GrowStep(c: Call, ok: bool, junk: Ptr)
      requires WellFormed(ix) && prod == NeedIndex(c)
      modifies this
      ensures Snapshot() == Next(old(Snapshot()), Produce(ok, 0, junk))
    {
      if ok {
        ix := Grow(ix, junk);
        if KeyAt(ix, |ix.headers| - 1, NewTail(ix)).Invalid? { prod := StoreKey(c); } else { prod := ProdFault; }
      } else {
        prod := UndoValue(c, c.first, Blocks(tailIndex));
      }
    }

    predicate Valid(p: Ptr)
      reads this
    { p.At? && p.b < |blocks| && |blocks[p.b].cells| == BLOCK_SIZE }

    /** The block is ready: make it known and link it. */
    method AddBlock(c: Call, e: EntryId, b': Block)
      requires WellFormed(ix) && prod == StoreValue(c, e, b')
      modifies this
      ensures Snapshot() == Next(old(Snapshot()), Produce(true, 0, Null))
    {
      if e < |ix.entries| && c.left > 0 && ((CellOf(tailIndex) == 0 && c.first.Null?) || Valid(tailBlock)) {
        var c' := c.(first := if c.first.Null? then At(b') else c.first, left := c.left - 1);
        ix := SetValue(ix, e, At(b'));
        if !(CellOf(tailIndex) == 0 && c.first.Null?) {
          blocks := blocks[tailBlock.b := blocks[tailBlock.b].(next := At(b'))];
        }
        tailBlock := At(b');
        if c'.left > 0 { prod := Check(c'); } else { StartWriting(c'); }
      } else {
        prod := ProdFault;
      }
    }

    method WriteStep(c: Call, end: Ptr, i: nat, stop: nat)
      requires WellFormed(ix) && prod == Write(c, end, i, stop)
      modifies this
      ensures Snapshot() == Next(old(Snapshot()), Produce(true, 0, Null))
    {
      if i < stop {
        if Valid(tailBlock) && tailIndex <= i < tailIndex + |c.items| {
          var m := blocks[tailBlock.b];
          blocks := blocks[tailBlock.b := m.(cells := m.cells[CellOf(i) := Full(c.items[i - tailIndex])])];
          prod := Write(c, end, i + 1, stop);
        } else {
          prod := ProdFault;
        }
      } else if tailBlock == end {
        prod := if i == tailIndex + |c.items| then Publish(c) else ProdFault;
      } else if Valid(tailBlock) {
        tailBlock := blocks[tailBlock.b].next;
        prod := Write(c, end, i, Stop(i, tailIndex + |c.items|));
      } else {
        prod := ProdFault;
      }
    }

    method FreeStep(c: Call, cur: Ptr)
      requires WellFormed(ix) && prod == FreeChain(c, cur)
      modifies this
      ensures Snapshot() == Next(old(Snapshot()), Produce(true, 0, Null))
    {
      if cur.Null? {
        tailBlock := c.start;
        prod := Ready(false);
      } else if Valid(cur) {
        free := free + {cur.b};
        prod := FreeChain(c, blocks[cur.b].next);
      } else {
        prod := ProdFault;
      }
    }

    method UndoStep(c: Call, cur: Ptr, q: nat)
      requires WellFormed(ix) && prod == UndoValue(c, cur, q)
      modifies this
      ensures Snapshot() == Next(old(Snapshot()), Produce(true, 0, Null))
    {
      var j := |ix.headers| - 1;
      if cur.Null? {
        prod := FreeChain(c, c.first);
      } else {
        var key := KeyAt(ix, j, Cur(ix).tail);
        if key.Invalid? {
          prod := ProdFault;
        } else {
          var e := EntryOf(ix, j, LookupSlot(Cur(ix), Cur(ix).tail, key.q, q));
          if e < |ix.entries| && ix.entries[e].key == Base(q) && ix.entries[e].value.At? {
            ix := SetValue(ix, e, Null);
            prod := UndoTail(c, cur, q);
          } else {
            prod := ProdFault;
          }
        }
      }
    }

    /** headIndex.fetch_add(n) */
    method ClaimStep(t: Tid, n: nat)
      requires WellFormed(ix) && Enabled(Snapshot(), Claim(t, n))
      modifies this
      ensures Snapshot() == Next(old(Snapshot()), Claim(t, n))
    {
      cons := cons[t := LoadHeader(Range(headIndex, headIndex, headIndex + n, []))];
      headIndex := headIndex + n;
    }

    method GoOn(t: Tid, r: Range, k: nat, slot: nat)
      requires t < |cons|
      modifies this`cons
      ensures cons == old(cons)[t := NextBlock(old(Snapshot()), r, k, slot)]
    {
      if r.i >= r.hi {
        cons := cons[t := Idle(r)];
      } else if k < |ix.headers| && ix.headers[k].cap > 0 {
        cons := cons[t := LoadValue(r, k, (slot + 1) % ix.headers[k].cap)];
      } else {
        cons := cons[t := ConsFault];
      }
    }

    /** One instruction of consumer t. */
    method ConsumerStep(t: Tid)
      requires WellFormed(ix) && Enabled(Snapshot(), Consume(t))
      modifies this
      ensures Snapshot() == Next(old(Snapshot()), Consume(t))
    {
      match cons[t] {
        case LoadHeader(r) =>
          cons := cons[t := LoadTail(r, |ix.headers| - 1)];
        case LoadTail(r, k) =>
          cons := cons[t := if k < |ix.headers| then LoadKey(r, k, ix.headers[k].tail) else ConsFault];
        case LoadKey(r, k, tail) =>
          var key := KeyAt(ix, k, tail);
          if k < |ix.headers| && ix.headers[k].cap > 0 && key.Base? {
            cons := cons[t := LoadValue(r, k, LookupSlot(ix.headers[k], tail, key.q, BlockOf(r.i)))];
          } else {
            cons := cons[t := ConsFault];
          }
        case LoadValue(r, k, slot) =>
          var value := ValueAt(ix, k, slot);
          if value.At? && KeyAt(ix, k, slot) == Base(BlockOf(r.i)) {
            cons := cons[t := Copy(r, k, slot, value.b, r.i)];
          } else {
            cons := cons[t := ConsFault];
          }
        case Copy(r, k, slot, b, from) =>
          if r.i >= Stop(from, r.hi) {
            cons := cons[t := SetEmpty(r, k, slot, b, from)];
          } else if Valid(At(b)) && blocks[b].cells[CellOf(r.i)].Full? {
            var m := blocks[b];
            blocks := blocks[b := m.(cells := m.cells[CellOf(r.i) := Empty])];
            cons := cons[t := Copy(r.(i := r.i + 1, got := r.got + [m.cells[CellOf(r.i)].x]), k, slot, b, from)];
          } else {
            cons := cons[t := ConsFault];
          }
        case SetEmpty(r, k, slot, b, from) =>
          if b < |blocks| && from <= r.i && blocks[b].done + (r.i - from) <= BLOCK_SIZE {
            blocks := blocks[b := blocks[b].(done := blocks[b].done + (r.i - from))];
            if blocks[b].done == BLOCK_SIZE {
              cons := cons[t := Unindex(r, k, slot, b)];
            } else {
              GoOn(t, r, k, slot);
            }
          } else {
            cons := cons[t := ConsFault];
          }
        case Unindex(r, k, slot, b) =>
          var e := EntryOf(ix, k, slot);
          if e < |ix.entries| {
            ix := SetValue(ix, e, Null);
            cons := cons[t := FreeBlock(r, k, slot, b)];
          } else {
            cons := cons[t := ConsFault];
          }
        case FreeBlock(r, k, slot, b) =>
          free := free + {b};
          GoOn(t, r, k, slot);
      }
    }
  }
}
