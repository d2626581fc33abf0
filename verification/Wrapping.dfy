/** Indices as the source stores them: unsigned words of w bits that wrap around.  The other modules use
    unbounded indices; here their comparisons, distances and block numbers are shown to agree. */
module Wrapping {
  import opened Modular
  import opened BlockIndex
  import opened IndexWords
  import opened SubQueue
  import opened Sums
  import D = DequeueCounters
  import P = Producer
  import Proof = SubQueueProof

  // ---------------------------------------------------------------------------------------------
  // The room check
  // ---------------------------------------------------------------------------------------------

  /** The check passes exactly when the new block still fits below head + 2^(w-1). */
  lemma RoomCheckIsExact(head: nat, base: nat, w: nat)
    requires w > 6 && head <= base < head + Pow2(w - 1)
    ensures HasRoom(Word(head, w), Word(base, w), w) <==> base + BLOCK_SIZE - head < Pow2(w - 1)
  {
    assert Pow2(w - 1) >= 64 by { PowMono(6, w - 1); }
    WordOfDifference(base, BLOCK_SIZE, w);
    CircularLessIsLess(head, base + BLOCK_SIZE, w);
  }

  /** Where the blocks end that have been found to have room: the blocks before tailIndex, and those
      that the call has taken so far. */
  function Room(s: State): int {
    match s.prod
    case Check(c) => BLOCK_SIZE * (Blocks(s.tail + |c.items|) - c.left)
    case NeedIndex(c) => BLOCK_SIZE * (Blocks(s.tail + |c.items|) - c.left + 1)
    case StoreKey(c) => BLOCK_SIZE * (Blocks(s.tail + |c.items|) - c.left + 1)
    case StoreTail(c, _) => BLOCK_SIZE * (Blocks(s.tail + |c.items|) - c.left + 1)
    case GetBlock(c, _) => BLOCK_SIZE * (Blocks(s.tail + |c.items|) - c.left + 1)
    case StoreValue(c, _, _) => BLOCK_SIZE * (Blocks(s.tail + |c.items|) - c.left + 1)
    case Write(c, _, _, _) => BLOCK_SIZE * Blocks(s.tail + |c.items|)
    case Publish(c) => BLOCK_SIZE * Blocks(s.tail + |c.items|)
    case _ => BLOCK_SIZE * Blocks(s.tail)
  }

  const HALF: int := Pow2(INDEX_BITS - 1)

  predicate Within(s: State, half: int) { s.head <= s.tail <= BLOCK_SIZE * Blocks(s.tail) <= Room(s) < s.head + half }

  predicate Fits(s: State) { Within(s, HALF) }

  lemma CheckStays(s: State, op: Op, s': State, half: int)
    requires Within(s, half) && WellFormed(s.ix) && Enabled(s, op) && s' == Next(s, op) && op.Produce? && s.prod.Check?
    requires RoomFor(s.head, s.tail, s.prod.c) ==> Room(s) + BLOCK_SIZE < s.head + half
    ensures Within(s', half)
  {
  }

  lemma AllocateStays(s: State, op: Op, s': State, half: int)
    requires Within(s, half) && WellFormed(s.ix) && Enabled(s, op) && s' == Next(s, op) && op.Produce? && Proof.Builds(s.prod) && !s.prod.Check?
    ensures Within(s', half)
  {
    if s.prod.StoreValue? { StoreStays(s, op, s', half); }
  }

  lemma StoreStays(s: State, op: Op, s': State, half: int)
    requires Within(s, half) && WellFormed(s.ix) && Enabled(s, op) && s' == Next(s, op) && op.Produce? && s.prod.StoreValue?
    ensures Within(s', half)
  {
  }

  /** The room check refuses a block exactly when it would not fit. */
  lemma CheckIsExact(s: State)
    requires Fits(s) && s.prod.Check?
    ensures RoomFor(s.head, s.tail, s.prod.c) <==> Room(s) + BLOCK_SIZE < s.head + HALF
  {
    RoomForIs(s.head, s.tail, s.prod.c, Room(s));
  }

  lemma RoomForIs(head: nat, tail: nat, c: Call, base: nat)
    requires base == BLOCK_SIZE * (Blocks(tail + |c.items|) - c.left) && head <= base < head + HALF
    ensures RoomFor(head, tail, c) <==> base + BLOCK_SIZE < head + HALF
  {
    RoomCheckIsExact(head, base, INDEX_BITS);
  }

  lemma WriteStays(s: State, op: Op, s': State, half: int)
    requires Within(s, half) && WellFormed(s.ix) && Enabled(s, op) && s' == Next(s, op) && op.Produce? && !Proof.Builds(s.prod)
    ensures Within(s', half)
  {
  }

  lemma OtherStays(s: State, op: Op, s': State, half: int)
    requires Within(s, half) && WellFormed(s.ix) && Enabled(s, op) && s' == Next(s, op) && !op.Produce?
    ensures Within(s', half)
  {
    if op.StartEnqueue? { StartStays(s, op, s'); }
  }

  lemma StartStays(s: State, op: Op, s': State)
    requires WellFormed(s.ix) && Enabled(s, op) && s' == Next(s, op) && op.StartEnqueue?
    ensures Room(s') == Room(s) && s'.head == s.head && s'.tail == s.tail
  {
  }

  lemma StepFits(s: State, op: Op, s': State)
    requires Fits(s) && WellFormed(s.ix) && Enabled(s, op) && s' == Next(s, op)
    ensures Fits(s')
  {
    if !op.Produce? {
      OtherStays(s, op, s', HALF);
    } else if s.prod.Check? {
      CheckIsExact(s);
      CheckStays(s, op, s', HALF);
    } else if Proof.Builds(s.prod) {
      AllocateStays(s, op, s', HALF);
    } else {
      WriteStays(s, op, s', HALF);
    }
  }

  lemma RunFits(b: seq<P.State>, ops: seq<P.Op>, n: nat)
    requires P.Run(b, ops) && n < |b|
    ensures Fits(b[n].q)
  {
    assert HALF > 0;
    for k := 0 to n
      invariant Fits(b[k].q)
    {
      assert P.Step(b[k], ops[k], b[k + 1]);
      ProducerStepFits(b[k], ops[k], b[k + 1]);
    }
  }

  lemma ProducerStepFits(s: P.State, op: P.Op, s': P.State)
    requires Fits(s.q) && P.Step(s, op, s')
    ensures Fits(s'.q)
  {
    if op.Other? {
      StepFits(s.q, op.op, s'.q);
    } else if s'.q != s.q {
      StepFits(s.q, Claim(op.t, s.c.pcs[op.t].actual), s'.q);
    }
  }

  /** Although each room check sees only wrapped words, in every run of producer and consumers the indices
      stay less than half the words apart.  So the wrapped comparisons of head and tail mean what they
      say, the assertion before a new block holds, and the room check refuses a block exactly when it
      would not fit. */
  lemma ComparisonsAreExact(b: seq<P.State>, ops: seq<P.Op>, n: nat)
    requires P.Run(b, ops) && n < |b|
    ensures var s := b[n].q;
      && s.head <= s.tail <= Room(s) < s.head + HALF
      && (CircularLess(Word(s.head, INDEX_BITS), Word(s.tail, INDEX_BITS), INDEX_BITS) <==> s.head < s.tail)
      && !CircularLess(Word(s.tail, INDEX_BITS), Word(s.head, INDEX_BITS), INDEX_BITS)
      && !CircularLess(Word(Room(s), INDEX_BITS), Word(s.head, INDEX_BITS), INDEX_BITS)
      && (s.prod.Check? ==> (RoomFor(s.head, s.tail, s.prod.c) <==> Room(s) + BLOCK_SIZE < s.head + HALF))
  {
    RunFits(b, ops, n);
    var s := b[n].q;
    NotBehind(s.head, s.tail);
    NotBehind(s.head, Room(s));
    if s.prod.Check? { CheckIsExact(s); }
  }

  lemma NotBehind(head: nat, x: nat)
    requires head <= x < head + HALF
    ensures CircularLess(Word(head, INDEX_BITS), Word(x, INDEX_BITS), INDEX_BITS) <==> head < x
    ensures !CircularLess(Word(x, INDEX_BITS), Word(head, INDEX_BITS), INDEX_BITS)
  {
    CircularLessIsLess(head, x, INDEX_BITS);
    CircularLessIsLess(x, head, INDEX_BITS);
  }

  // ---------------------------------------------------------------------------------------------
  // The tests of dequeue and dequeue_bulk
  // ---------------------------------------------------------------------------------------------

  /** tail - (count - over), computed on words: the elements that seem to be available. */
  function Available(tail: nat, count: nat, over: nat, w: nat): nat {
    Word(Word(tail, w) - Word(Word(count, w) - Word(over, w), w), w)
  }

  lemma AvailableIs(tail: nat, count: nat, over: nat, w: nat)
    ensures Available(tail, count, over, w) == Word(tail - (count - over), w)
    ensures Word(0 - Available(tail, count, over, w), w) == Word(count - over - tail, w)
    ensures Word(Word(Word(count, w) - Word(over, w), w) - Word(tail, w), w) == Word(count - over - tail, w)
  {
    WordOfDifference(count, over, w);
    WordOfDifference(tail, count - over, w);
    WordOfDifference(count - over, tail, w);
    WordOfSmall(0, w);
    WordOfDifference(0, tail - (count - over), w);
  }

  /** dequeue_bulk compares that number with zero, dequeue compares count - over with tail: the same test.
      When fewer than half the words are available, it is exact unless the deficit wraps around. */
  lemma TestIsExact(tail: nat, count: nat, over: nat, w: nat)
    requires w > 0 && tail - (count - over) < Pow2(w - 1)
    ensures CircularLess(0, Available(tail, count, over, w), w)
            <==> CircularLess(Word(Word(count, w) - Word(over, w), w), Word(tail, w), w)
    ensures tail - (count - over) > 0 ==>
              CircularLess(0, Available(tail, count, over, w), w) && Available(tail, count, over, w) == tail - (count - over)
    ensures tail - (count - over) <= 0 ==>
              (CircularLess(0, Available(tail, count, over, w), w) <==> Word(count - over - tail, w) > Pow2(w - 1))
  {
    AvailableIs(tail, count, over, w);
    var d := tail - (count - over);
    if d > 0 {
      WordOfSmall(d, w);
      WordOfSmall(-d, w);
    }
  }

  /** What thread t, about to read dequeueOptimisticCount, has missed: the units returned since it read
      dequeueOvercommit, the units reserved by others, and the elements claimed beyond the tail it read. */
  function Missed(c: D.State, t: nat): int
    requires t < |c.pcs| && c.pcs[t].LoadCount?
  { (c.over - c.pcs[t].over) + Sum(c.pcs, D.InFlight) + (c.head - c.pcs[t].tail) }

  lemma Desired(b: seq<P.State>, ops: seq<P.Op>, n: nat, t: nat)
    requires P.Run(b, ops) && n < |b| && t < |b[n].c.pcs| && b[n].c.pcs[t].LoadCount?
    ensures b[n].c.pcs[t].tail - (b[n].c.count - b[n].c.pcs[t].over) == -Missed(b[n].c, t) < HALF
  {
    var s := b[n];
    var vc, vq := P.RunKeepsInv(b, ops, n);
    RunFits(b, ops, n);
    assert D.PcOk(s.c, vc, t);
    SumNonNegative(s.c.pcs, D.InFlight);
  }

  /** In every run, whatever thread t has read earlier: if it finds elements available, there are as many
      as it computes on the words.  The test as a whole is exact if and only if what the thread has missed,
      reduced to a word, is at most half the words; so in particular while it has missed no more. */
  lemma DesiredIsExact(b: seq<P.State>, ops: seq<P.Op>, n: nat, t: nat)
    requires P.Run(b, ops) && n < |b| && t < |b[n].c.pcs| && b[n].c.pcs[t].LoadCount?
    ensures var c := b[n].c;
      var available := Available(c.pcs[t].tail, c.count, c.pcs[t].over, INDEX_BITS);
      var desired := c.pcs[t].tail - (c.count - c.pcs[t].over);
      && desired == -Missed(c, t)
      && (desired > 0 ==> CircularLess(0, available, INDEX_BITS) && available == desired)
      && ((CircularLess(0, available, INDEX_BITS) <==> desired > 0) <==> desired > 0 || Word(Missed(c, t), INDEX_BITS) <= HALF)
      && (Missed(c, t) <= HALF ==> (CircularLess(0, available, INDEX_BITS) <==> desired > 0))
  {
    var c := b[n].c;
    Desired(b, ops, n, t);
    TestIsExact(c.pcs[t].tail, c.count, c.pcs[t].over, INDEX_BITS);
    if 0 <= Missed(c, t) <= HALF { WordOfSmall(Missed(c, t), INDEX_BITS); }
  }

  lemma Indices(b: seq<P.State>, ops: seq<P.Op>, n: nat)
    requires P.Run(b, ops) && n < |b|
    ensures b[n].c.head == b[n].q.head <= b[n].q.tail == b[n].c.tail
    ensures b[n].c.count == b[n].c.head + b[n].c.over + Sum(b[n].c.pcs, D.InFlight)
    ensures forall t :: 0 <= t < |b[n].c.pcs| && b[n].c.pcs[t].Reserve? ==> b[n].c.pcs[t].over <= b[n].c.over
  {
    var vc, vq := P.RunKeepsInv(b, ops, n);
    forall t | 0 <= t < |b[n].c.pcs| && b[n].c.pcs[t].Reserve? ensures b[n].c.pcs[t].over <= b[n].c.over {
      assert D.PcOk(b[n].c, vc, t);
    }
  }

  /** The second test, after the fetch_add of step j: it is exact if, from the head at that step, fewer
      than half the words are between head and the tail read now, and the units by which the thread's
      overcommit was stale and those in flight were not more than half the words. */
  lemma RecheckIsExact(b: seq<P.State>, ops: seq<P.Op>, j: nat, n: nat, t: nat)
    requires P.Run(b, ops) && j < n < |b| && ops[j] == P.Count(t) && t < |b[j].c.pcs| && b[j].c.pcs[t].Reserve?
    requires t < |b[n].c.pcs| && b[n].c.pcs[t] == D.Recheck(b[j].c.pcs[t].over, b[j].c.count, b[j].c.pcs[t].want)
    requires b[n].c.tail - b[j].c.head < HALF && (b[j].c.over - b[j].c.pcs[t].over) + Sum(b[j].c.pcs, D.InFlight) <= HALF
    ensures var pc := b[n].c.pcs[t];
      var available := Available(b[n].c.tail, pc.my, pc.over, INDEX_BITS);
      var actual := b[n].c.tail - (pc.my - pc.over);
      && (CircularLess(0, available, INDEX_BITS) <==> actual > 0)
      && (actual > 0 ==> available == actual)
  {
    Indices(b, ops, j);
    Indices(b, ops, n);
    P.HeadGrows(b, ops, j, n);
    var pc := b[n].c.pcs[t];
    var actual := b[n].c.tail - (pc.my - pc.over);
    SumOfFlights(b[j].c);
    TestIsExact(b[n].c.tail, pc.my, pc.over, INDEX_BITS);
    if actual <= 0 { WordOfSmall(-actual, INDEX_BITS); }
  }

  lemma SumOfFlights(c: D.State)
    ensures Sum(c.pcs, D.InFlight) >= 0
  {
    SumNonNegative(c.pcs, D.InFlight);
  }

  // ---------------------------------------------------------------------------------------------
  // The slot computed by get_block_index_index_for_index
  // ---------------------------------------------------------------------------------------------

  /** The offset as the compiler sees it: the signed difference is converted back to unsigned, because
      BLOCK_SIZE is unsigned, and then divided. */
  function WrappedOffset(index: nat, tailBase: nat, w: nat): nat { Word(index - tailBase, w) / BLOCK_SIZE }

  function WrappedSlot(cap: nat, tail: nat, index: nat, tailBase: nat, w: nat): nat
    requires cap > 0
  { Word(tail + WrappedOffset(index, tailBase, w), w) % cap }

  lemma OffsetIs(q: nat, key: nat, w: nat) returns (k: int)
    requires w > 6
    ensures WrappedOffset(Word(BLOCK_SIZE * q, w), Word(BLOCK_SIZE * key, w), w) == q - key + Pow2(w - 5) * k
  {
    var x, m := BLOCK_SIZE * q - BLOCK_SIZE * key, Pow2(w);
    WordOfDifference(BLOCK_SIZE * q, BLOCK_SIZE * key, w);
    PowMono(5, w);
    assert Pow2(5) == 32 by { assert Pow2(3) == 8; }
    assert m == 32 * Pow2(w - 5);
    CongMod(x, m);
    k := CongTo(x % m, x, m);
    assert m * k == 32 * (Pow2(w - 5) * k);
    DivModUnique(x % m, 32, q - key + Pow2(w - 5) * k, 0);
  }

  lemma CongWord(x: int, cap: int, w: nat)
    requires cap > 0 && Pow2(w) % cap == 0
    ensures Word(x, w) % cap == x % cap
  {
    CongMod(x, Pow2(w));
    CongDivisor(Word(x, w), x, cap, Pow2(w));
    CongSameMod(Word(x, w), x, cap);
  }

  lemma CongShift(x: int, y: int, p: int, k: int, cap: int)
    requires cap > 0 && p > 0 && p % cap == 0 && x - y == p * k
    ensures x % cap == y % cap
  {
    CongFrom(x, y, p, k);
    CongDivisor(x, y, cap, p);
    CongSameMod(x, y, cap);
  }

  /** The slot of block q computed on words, from a tail whose key is block key. */
  function SlotOnWords(h: Header, tail: nat, key: nat, q: nat, w: nat): nat
    requires h.cap > 0
  { WrappedSlot(h.cap, tail, Word(BLOCK_SIZE * q, w), Word(BLOCK_SIZE * key, w), w) }

  /** Although the division is unsigned, the masked slot is the slot at distance q - key from the tail,
      forwards or backwards, if the capacity divides 2^w / BLOCK_SIZE. */
  lemma WrappedSlotIsExact(h: Header, tail: nat, q: nat, key: nat, w: nat)
    requires w > 6 && h.cap > 0 && Pow2(w - 5) % h.cap == 0
    ensures SlotOnWords(h, tail, key, q, w) == LookupSlot(h, tail, key, q)
  {
    var d := WrappedOffset(Word(BLOCK_SIZE * q, w), Word(BLOCK_SIZE * key, w), w);
    var k := OffsetIs(q, key, w);
    PowMono(5, w);
    CongShift(Pow2(w), 0, Pow2(w - 5), 32, h.cap);
    CongWord(tail + d, h.cap, w);
    CongShift(tail + d, tail + (q - key), Pow2(w - 5), k, h.cap);
  }

  lemma CapacityDivides(c: nat, w: nat)
    requires c + 5 <= w
    ensures Pow2(w - 5) % Pow2(c) == 0
  {
    PowMono(c, w - 5);
  }

  /** For a capacity that does not divide 2^w / BLOCK_SIZE, already the distance -1 goes wrong. */
  lemma WrappedSlotNeedsDivisor(h: Header, w: nat)
    requires w > 6 && 0 < h.cap < Pow2(w) && SlotOnWords(h, 0, 1, 0, w) == LookupSlot(h, 0, 1, 0)
    ensures Pow2(w - 5) % h.cap == 0
  {
    var x: int := -1 * BLOCK_SIZE;
    PowMono(6, w);
    PowMono(5, w);
    assert Pow2(5) == 32 by { assert Pow2(3) == 8; }
    WordOfDifference(0, BLOCK_SIZE, w);
    WordOfSmall(x, w);
    DivModUnique(x + Pow2(w), 32, Pow2(w - 5) - 1, 0);
    assert Pow2(w - 5) <= Pow2(w);
    WordOfSmall(Pow2(w - 5) - 1, w);
    CongMod(Pow2(w - 5) - 1, h.cap);
    CongMod(-1, h.cap);
    CongTrans(Pow2(w - 5) - 1, (-1) % h.cap, -1, h.cap);
  }

  lemma WrappedSlotExactly(h: Header, w: nat)
    requires w > 6 && 0 < h.cap < Pow2(w)
    ensures (forall tail: nat, key: nat, q: nat :: SlotOnWords(h, tail, key, q, w) == LookupSlot(h, tail, key, q))
            <==> Pow2(w - 5) % h.cap == 0
  {
    if Pow2(w - 5) % h.cap == 0 {
      forall tail: nat, key: nat, q: nat ensures SlotOnWords(h, tail, key, q, w) == LookupSlot(h, tail, key, q) {
        WrappedSlotIsExact(h, tail, q, key, w);
      }
    } else if SlotOnWords(h, 0, 1, 0, w) == LookupSlot(h, 0, 1, 0) {
      WrappedSlotNeedsDivisor(h, w);
    }
  }

  // ---------------------------------------------------------------------------------------------
  // blockBaseDiff
  // ---------------------------------------------------------------------------------------------

  /** x & ~(BLOCK_SIZE - 1) */
  function BaseOf(x: nat): nat { x - x % BLOCK_SIZE }

  lemma BaseOfRemainder(x: int, p: int)
    requires p > 0
    ensures x % (32 * p) - (x % (32 * p)) % 32 == (32 * (x / 32)) % (32 * p)
  {
    var m, r := 32 * p, x % (32 * p);
    var k := x / m;
    assert x == m * k + r;
    assert m * k == 32 * (p * k);
    DivModUnique(x, 32, p * k + r / 32, r % 32);
    assert 32 * (x / 32) == m * k + 32 * (r / 32);
    DivModUnique(32 * (x / 32), m, k, 32 * (r / 32));
  }

  lemma BaseOfWord(x: int, w: nat)
    requires w > 6
    ensures BaseOf(Word(x, w)) == Word(BLOCK_SIZE * (x / BLOCK_SIZE), w)
  {
    PowMono(5, w);
    assert Pow2(5) == 32 by { assert Pow2(3) == 8; }
    assert Pow2(w) == 32 * Pow2(w - 5);
    BaseOfRemainder(x, Pow2(w - 5));
  }

  lemma DistanceOnWords(a: int, b: int, w: nat)
    requires 0 <= a - b < Pow2(w)
    ensures Word(Word(a, w) - Word(b, w), w) == a - b
  {
    WordOfDifference(a, b, w);
    WordOfSmall(a - b, w);
  }

  /** The last block base at or before index x - 1, on words. */
  lemma BaseBefore(x: nat, w: nat)
    requires w > 6
    ensures BaseOf(Word(x - 1, w)) == Word(BLOCK_SIZE * (Blocks(x) - 1), w)
  {
    BaseOfWord(x - 1, w);
    assert (x - 1) / BLOCK_SIZE == Blocks(x) - 1;
  }

  /** blockBaseDiff as computed on the wrapped words, divided by BLOCK_SIZE, is the number of blocks that
      the call has to allocate; also for startTailIndex == 0, where startTailIndex - 1 wraps around. */
  lemma BlockBaseDiffIsExact(start: nat, count: nat, w: nat)
    requires w > 6 && BLOCK_SIZE * (Blocks(start + count) - Blocks(start)) < Pow2(w)
    ensures Word(BaseOf(Word(start + count - 1, w)) - BaseOf(Word(start - 1, w)), w)
            == BLOCK_SIZE * (Blocks(start + count) - Blocks(start))
    ensures Word(BaseOf(Word(start - 1, w)) + BLOCK_SIZE, w) == Word(BLOCK_SIZE * Blocks(start), w)
  {
    var a, b := BLOCK_SIZE * (Blocks(start + count) - 1), BLOCK_SIZE * (Blocks(start) - 1);
    BaseBefore(start + count, w);
    BaseBefore(start, w);
    DistanceOnWords(a, b, w);
    WordOfDifference(b, BLOCK_SIZE, w);
  }
}
