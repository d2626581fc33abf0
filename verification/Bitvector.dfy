/** eastl::bitvector: a growing bit string in words, with iterators that point at single bits. */
module Bitvector {
  import opened Words

  // ---------------------------------------------------------------------------------------------
  // Iterators
  // ---------------------------------------------------------------------------------------------

  /** A bit of a word; word counts from the first word of the container. */
  datatype Iterator = Iterator(word: int, bit: nat)

  predicate Ok(it: Iterator) { it.bit < BITS }

  /** The absolute bit position. */
  function Position(it: Iterator): int { BITS * it.word + it.bit }

  /** operator++ and operator-- */
  function Inc(it: Iterator): (r: Iterator)
    requires Ok(it)
    ensures Ok(r) && Position(r) == Position(it) + 1
  { if it.bit + 1 == BITS then Iterator(it.word + 1, 0) else Iterator(it.word, it.bit + 1) }

  function Dec(it: Iterator): (r: Iterator)
    requires Ok(it)
    ensures Ok(r) && Position(r) == Position(it) - 1
  { if it.bit == 0 then Iterator(it.word - 1, BITS - 1) else Iterator(it.word, it.bit - 1) }

  /** operator+=, with its separate computation for moves backwards past the start of the word: for every
      signed n, the absolute position moves by n. */
  function Plus(it: Iterator, n: int): (r: Iterator)
    requires Ok(it)
    ensures Ok(r) && Position(r) == Position(it) + n
  {
    var m := n + it.bit;
    if m >= 0 then Iterator(it.word + m / BITS, m % BITS)
    else
      var backwards := -m + BITS - 1;
      Iterator(it.word - backwards / BITS, (BITS - 1) - backwards % BITS)
  }

  /** operator-=, operator- */
  function Minus(it: Iterator, n: int): (r: Iterator)
    requires Ok(it)
    ensures Ok(r) && Position(r) == Position(it) - n
  { Plus(it, -n) }

  function Distance(it: Iterator, from: Iterator): (n: int)
    requires Ok(it) && Ok(from)
    ensures n == Position(it) - Position(from)
  { (it.word - from.word) * BITS + it.bit - from.bit }

  /** An iterator is determined by its position, so moves can be undone and distances are exact. */
  lemma PositionDetermines(it: Iterator, other: Iterator)
    requires Ok(it) && Ok(other)
    ensures it == other <==> Position(it) == Position(other)
    ensures (it.word < other.word || (it.word == other.word && it.bit <= other.bit)) <==> Position(it) <= Position(other)
  {
  }

  lemma SamePosition(it: Iterator, other: Iterator)
    requires Ok(it) && Ok(other)
    ensures it == other <==> Position(it) == Position(other)
  {
  }

  lemma PlusIsInvertible(it: Iterator, n: int, other: Iterator)
    requires Ok(it) && Ok(other)
    ensures Minus(Plus(it, n), n) == it && Plus(other, Distance(it, other)) == it
  {
    PositionDetermines(Minus(Plus(it, n), n), it);
    PositionDetermines(Plus(other, Distance(it, other)), it);
  }

  // ---------------------------------------------------------------------------------------------
  // What the operations do to the bit string
  // ---------------------------------------------------------------------------------------------

  /** The bits from..from + n have been copied to to..to + n. */
  function Copied(b: seq<bool>, from: nat, to: nat, n: nat): (r: seq<bool>)
    requires from + n <= |b| && to + n <= |b|
    ensures |r| == |b|
  { seq(|b|, k requires 0 <= k < |b| => if to <= k < to + n then b[k - to + from] else b[k]) }

  ghost predicate CopyAt(b: seq<bool>, r: seq<bool>, from: int, to: int, n: int, k: int) {
    0 <= k < |b| == |r| && 0 <= from && from + n <= |b| && r[k] == if to <= k < to + n then b[k - to + from] else b[k]
  }

  /** r is b with the bits from..from + n copied to to..to + n. */
  ghost predicate IsCopy(b: seq<bool>, r: seq<bool>, from: int, to: int, n: int) {
    && |b| == |r| && 0 <= n && 0 <= from && from + n <= |b| && 0 <= to && to + n <= |b|
    && forall k :: 0 <= k < |b| ==> CopyAt(b, r, from, to, n, k)
  }

  lemma CopyIsCopied(b: seq<bool>, r: seq<bool>, from: nat, to: nat, n: nat)
    requires IsCopy(b, r, from, to, n)
    ensures r == Copied(b, from, to, n)
  {
    forall k | 0 <= k < |b| ensures r[k] == Copied(b, from, to, n)[k] { assert CopyAt(b, r, from, to, n, k); }
  }

  /** With size() bits, the last mFreeBitCount of the last word are not in use. */
  class Bitvector {
    var mContainer: seq<Word>
    var mFreeBitCount: nat

    predicate Valid()
      reads this
    { mFreeBitCount < BITS && (mContainer == [] ==> mFreeBitCount == 0) }

    function Size(): (n: nat)
      reads this
      requires Valid()
    { |mContainer| * BITS - mFreeBitCount }

    ghost function Value(): (v: seq<bool>)
      reads this
      requires Valid()
      ensures |v| == Size()
    { Bits(mContainer)[..Size()] }

    constructor ()
      ensures Valid() && Value() == []
    { mContainer, mFreeBitCount := [], 0; }

    function Begin(): (it: Iterator) { Iterator(0, 0) }

    function End(): (it: Iterator)
      reads this
      requires Valid()
      ensures Ok(it) && Position(it) == Size()
    {
      Minus(Iterator(|mContainer|, 0), mFreeBitCount)
    }

    predicate Within(it: Iterator)
      reads this
    { Ok(it) && 0 <= it.word < |mContainer| }

    /** *it */
    function Get(it: Iterator): (value: bool)
      reads this
      requires Within(it)
      ensures 0 <= Position(it) < |Bits(mContainer)| && value == Bits(mContainer)[Position(it)]
    {
      BitAt(mContainer, Position(it), it.word, it.bit);
      mContainer[it.word][it.bit]
    }

    /** *it = value */
    method Put(it: Iterator, value: bool)
      requires Within(it)
      modifies this`mContainer
      ensures |mContainer| == old(|mContainer|) && 0 <= Position(it) < BITS * |mContainer|
      ensures Bits(mContainer) == old(Bits(mContainer))[Position(it) := value]
    {
      Place(Position(it), it.word, it.bit);
      UpdateBit(mContainer, Position(it), value);
      WithBitIsUpdate(mContainer[it.word], it.bit, value);
      mContainer := mContainer[it.word := WithBit(mContainer[it.word], it.bit, value)];
    }

    /** MoveBits: forwards, or backwards when the destination lies ahead; the ranges may overlap. */
    method MoveBits(start: Iterator, end: Iterator, dest: Iterator)
      requires Ok(start) && Ok(end) && Ok(dest) && 0 <= Position(start) <= Position(end) && 0 <= Position(dest)
      requires Position(end) <= BITS * |mContainer| && Position(dest) + (Position(end) - Position(start)) <= BITS * |mContainer|
      modifies this`mContainer
      ensures |mContainer| == old(|mContainer|)
      ensures Bits(mContainer) == Copied(old(Bits(mContainer)), Position(start), Position(dest), Position(end) - Position(start))
    {
      PositionDetermines(dest, start);
      if dest.word < start.word || (dest.word == start.word && dest.bit <= start.bit) {
        MoveForwards(start, end, dest);
      } else {
        MoveBackwards(start, end, dest);
      }
    }

    /** *d = *s, as one step of a copy upwards or downwards. */
    method CopyBit(s: Iterator, d: Iterator)
      requires Ok(s) && Ok(d) && 0 <= Position(s) < BITS * |mContainer| && 0 <= Position(d) < BITS * |mContainer|
      modifies this`mContainer
      ensures |mContainer| == old(|mContainer|)
      ensures Bits(mContainer) == old(Bits(mContainer))[Position(d) := old(Bits(mContainer))[Position(s)]]
    {
      var value := Get(s);
      Put(d, value);
    }

    method CopyForwards(s: Iterator, d: Iterator, ghost b: seq<bool>, ghost from: nat, ghost to: nat, ghost n: nat)
      requires Ok(s) && Ok(d) && Position(s) == from + n && Position(d) == to + n
      requires to <= from && from + n < BITS * |mContainer| && IsCopy(b, Bits(mContainer), from, to, n)
      modifies this`mContainer
      ensures |mContainer| == old(|mContainer|) && IsCopy(b, Bits(mContainer), from, to, n + 1)
    {
      CopiedForward(b, Bits(mContainer), from, to, n);
      CopyBit(s, d);
    }

    method CopyBackwards(s: Iterator, d: Iterator, ghost b: seq<bool>, ghost from: nat, ghost to: nat, ghost n: nat)
      requires 0 < from <= to && Ok(s) && Ok(d) && Position(s) == from - 1 && Position(d) == to - 1
      requires IsCopy(b, Bits(mContainer), from, to, n)
      modifies this`mContainer
      ensures |mContainer| == old(|mContainer|) && IsCopy(b, Bits(mContainer), from - 1, to - 1, n + 1)
    {
      CopiedBackward(b, Bits(mContainer), from, to, n);
      CopyBit(s, d);
    }

    method MoveForwards(start: Iterator, end: Iterator, dest: Iterator)
      requires Ok(start) && Ok(end) && Ok(dest) && 0 <= Position(dest) <= Position(start) <= Position(end) <= BITS * |mContainer|
      modifies this`mContainer
      ensures |mContainer| == old(|mContainer|)
      ensures Bits(mContainer) == Copied(old(Bits(mContainer)), Position(start), Position(dest), Position(end) - Position(start))
    {
      var s, d := start, dest;
      ghost var b, n := Bits(mContainer), 0;
      CopiedNone(b, Position(start), Position(dest));
      SamePosition(s, end);
      while s != end
        invariant Ok(s) && Ok(d) && Position(s) == Position(start) + n <= Position(end) && Position(d) == Position(dest) + n
        invariant s == end <==> Position(s) == Position(end)
        invariant |mContainer| == old(|mContainer|) && n >= 0
        invariant IsCopy(b, Bits(mContainer), Position(start), Position(dest), n)
        decreases Position(end) - Position(s)
      {
        CopyForwards(s, d, b, Position(start), Position(dest), n);
        d := Inc(d);
        s := Inc(s);
        n := n + 1;
        SamePosition(s, end);
      }
      CopyIsCopied(b, Bits(mContainer), Position(start), Position(dest), n);
    }

    method MoveBackwards(start: Iterator, end: Iterator, dest: Iterator)
      requires Ok(start) && Ok(end) && Ok(dest) && 0 <= Position(start) <= Position(dest) && Position(start) <= Position(end)
      requires Position(end) <= BITS * |mContainer| && Position(dest) + (Position(end) - Position(start)) <= BITS * |mContainer|
      modifies this`mContainer
      ensures |mContainer| == old(|mContainer|)
      ensures Bits(mContainer) == Copied(old(Bits(mContainer)), Position(start), Position(dest), Position(end) - Position(start))
    {
      BackwardLoop(start, end, Plus(dest, Distance(end, start)));
    }

    /** --dest; --end; *dest = *end */
    method StepBack(e0: Iterator, d0: Iterator, start: Iterator, ghost b: seq<bool>, ghost from: nat, ghost to: nat, ghost n: nat)
      returns (e: Iterator, d: Iterator)
      requires 0 < from <= to && Ok(e0) && Ok(d0) && Ok(start) && Position(e0) == from && Position(d0) == to
      requires IsCopy(b, Bits(mContainer), from, to, n)
      modifies this`mContainer
      ensures |mContainer| == old(|mContainer|) && IsCopy(b, Bits(mContainer), from - 1, to - 1, n + 1)
      ensures Ok(e) && Ok(d) && Position(e) == from - 1 && Position(d) == to - 1
      ensures e == start <==> from - 1 == Position(start)
    {
      d := Dec(d0);
      e := Dec(e0);
      CopyBackwards(e, d, b, from, to, n);
      SamePosition(e, start);
    }

    method BackwardLoop(start: Iterator, end: Iterator, destEnd: Iterator)
      requires Ok(start) && Ok(end) && Ok(destEnd) && 0 <= Position(start) <= Position(end) <= Position(destEnd) <= BITS * |mContainer|
      modifies this`mContainer
      ensures |mContainer| == old(|mContainer|)
      ensures Bits(mContainer) == Copied(old(Bits(mContainer)), Position(start), Position(start) + Position(destEnd) - Position(end),
                                         Position(end) - Position(start))
    {
      var e, d := end, destEnd;
      ghost var b, s, n := Bits(mContainer), Position(start), 0;
      ghost var from, to := Position(end), Position(destEnd);
      CopiedNone(b, from, to);
      SamePosition(e, start);
      while start != e
        invariant Ok(e) && Ok(d) && Position(e) == from && Position(d) == to && (e == start <==> from == s)
        invariant s <= from <= to && from + n == Position(end) && to + n == Position(destEnd) && n >= 0
        invariant |mContainer| == |old(mContainer)| && IsCopy(b, Bits(mContainer), from, to, n)
        decreases from
      {
        e, d := StepBack(e, d, start, b, from, to, n);
        from, to, n := from - 1, to - 1, n + 1;
      }
      CopyIsCopied(b, Bits(mContainer), from, to, n);
    }

    // ------------------------------------------------------------------------------------------
    // Growing and shrinking
    // ------------------------------------------------------------------------------------------

    /** pushBack(): one more bit, whatever it holds. */
    method PushRoom()
      requires Valid()
      modifies this
      ensures Valid() && Size() == old(Size()) + 1 && Value()[..old(Size())] == old(Value())
      ensures mFreeBitCount == if old(mFreeBitCount) == 0 then BITS - 1 else old(mFreeBitCount) - 1
    {
      if mFreeBitCount == 0 {
        Extended(mContainer, [Zero()]);
        mContainer := mContainer + [Zero()];
        mFreeBitCount := BITS;
      }
      mFreeBitCount := mFreeBitCount - 1;
    }

    method PushBack(value: bool)
      requires Valid()
      modifies this
      ensures Valid() && Value() == old(Value()) + [value]
      ensures mFreeBitCount == if old(mFreeBitCount) == 0 then BITS - 1 else old(mFreeBitCount) - 1
    {
      PushRoom();
      Put(Dec(End()), value);
    }

    /** PushBack when the last word has room. */
    method PushInWord(value: bool)
      requires Valid() && mFreeBitCount > 0
      modifies this
      ensures Valid() && mFreeBitCount == old(mFreeBitCount) - 1 && Value() == old(Value()) + [value]
    {
      PushBack(value);
    }

    /** A call on an empty bitvector is an error. */
    method PopBack()
      requires Valid() && Size() > 0
      modifies this
      ensures Valid() && Value() == old(Value())[..old(Size()) - 1]
    {
      mFreeBitCount := mFreeBitCount + 1;
      if mFreeBitCount == BITS {
        Extended(mContainer[..|mContainer| - 1], [mContainer[|mContainer| - 1]]);
        assert mContainer == mContainer[..|mContainer| - 1] + [mContainer[|mContainer| - 1]];
        mContainer := mContainer[..|mContainer| - 1];
        mFreeBitCount := 0;
      }
    }

    /** mContainer.resize(words, fill) */
    method ResizeContainer(words: nat, fill: Word)
      modifies this`mContainer
      ensures mContainer == if words <= |old(mContainer)| then old(mContainer)[..words]
                            else old(mContainer) + seq(words - |old(mContainer)|, _ => fill)
    {
      mContainer := if words <= |mContainer| then mContainer[..words] else mContainer + seq(words - |mContainer|, _ => fill);
    }

    /** resize(n): the common prefix stays; bits that come into view are whatever they are. */
    method Resize(n: nat)
      requires Valid()
      modifies this
      ensures Valid() && Size() == n
      ensures if n <= old(Size()) then Value() == old(Value())[..n] else Value()[..old(Size())] == old(Value())
    {
      var words := (n + BITS - 1) / BITS;
      ResizedBits(mContainer, words, Zero());
      ResizeContainer(words, Zero());
      mFreeBitCount := words * BITS - n;
    }

    /** The loop of resize(n, value) that fills up the last word. */
    method FillUp(newbits0: nat, value: bool) returns (newbits: nat)
      requires Valid()
      modifies this
      ensures var k := if old(mFreeBitCount) < newbits0 then old(mFreeBitCount) else newbits0;
        Valid() && newbits == newbits0 - k && mFreeBitCount == old(mFreeBitCount) - k && Value() == old(Value()) + seq(k, _ => value)
    {
      newbits := newbits0;
      ghost var k := 0;
      while mFreeBitCount > 0 && newbits > 0
        invariant Valid() && k >= 0 && newbits == newbits0 - k && mFreeBitCount == old(mFreeBitCount) - k
        invariant Value() == old(Value()) + seq(k, _ => value)
      {
        OneMore(old(Value()), k, value);
        PushInWord(value);
        newbits := newbits - 1;
        k := k + 1;
      }
    }

    /** The rest of resize(n, value), a word at a time. */
    method FillWords(n: nat, value: bool)
      requires Valid() && mFreeBitCount == 0
      modifies this
      ensures Valid()
      ensures Value() == if n <= old(Size()) then old(Value())[..n] else old(Value()) + seq(n - old(Size()), _ => value)
    {
      var element := if value then Not(Zero()) else Zero();
      var words := (n + BITS - 1) / BITS;
      FilledBits(mContainer, words, element, value);
      ResizeContainer(words, element);
      mFreeBitCount := words * BITS - n;
    }

    /** resize(n, value).  When it shrinks, newbits underflows: the last word is filled up beyond the new
        end, and then cut again; the old prefix of length n is what remains. */
    method ResizeWith(n: nat, value: bool)
      requires Valid() && BITS * |mContainer| < 0x1_0000_0000_0000_0000
      modifies this
      ensures Valid()
      ensures Value() == if n <= old(Size()) then old(Value())[..n] else old(Value()) + seq(n - old(Size()), _ => value)
    {
      var s := Size();
      if n < s { Resize(n); }
      var newbits := if n >= s then n - s else 0x1_0000_0000_0000_0000 - (s - n);
      newbits := FillUp(newbits, value);
      if newbits > 0 { FillWords(n, value); }
    }

    // ------------------------------------------------------------------------------------------
    // Single bits, insertion and removal
    // ------------------------------------------------------------------------------------------

    method Test(n: nat, defaultValue: bool) returns (value: bool)
      requires Valid()
      ensures value == if n < Size() then Value()[n] else defaultValue
    {
      if n < Size() {
        value := Get(Plus(Begin(), n));
      } else {
        value := defaultValue;
      }
    }

    /** set(n, value): grows when n is beyond the end. */
    method Set(n: nat, value: bool)
      requires Valid()
      modifies this
      ensures Valid() && Size() == (if n < old(Size()) then old(Size()) else n + 1) && Value()[n] == value
      ensures forall k :: 0 <= k < old(Size()) && k != n ==> Value()[k] == old(Value())[k]
    {
      ghost var before := Value();
      if n >= Size() { Resize(n + 1); }
      assert forall k :: 0 <= k < |before| ==> Value()[k] == before[k] by { assert Value()[..|before|] == before; }
      Put(Plus(Begin(), n), value);
    }

    /** The bits from p on move up by n, to the end. */
    method OpenGap(p: Iterator, n: nat)
      requires Valid() && Ok(p) && 0 <= Position(p) <= Size() - n
      modifies this`mContainer
      ensures |mContainer| == old(|mContainer|)
      ensures Bits(mContainer) == Copied(old(Bits(mContainer)), Position(p), Position(p) + n, old(Size()) - n - Position(p))
    {
      MoveBits(p, Minus(End(), n), Plus(p, n));
    }

    /** begin() + (position - begin()), after the container may have moved */
    function Again(position: Iterator): (r: Iterator)
      requires Ok(position)
      ensures r == position
    {
      PlusIsInvertible(position, 0, Begin());
      Plus(Begin(), Distance(position, Begin()))
    }

    /** insert(position, value) */
    method Insert(position: Iterator, value: bool) returns (result: Iterator)
      requires Valid() && Ok(position) && 0 <= Position(position) <= Size()
      modifies this
      ensures Valid() && Value() == old(Value())[..Position(position)] + [value] + old(Value())[Position(position)..]
      ensures result == position
    {
      ghost var before := Value();
      PushRoom();
      result := Again(position);
      PutInGap(result, value, before);
    }

    method PutInGap(p: Iterator, value: bool, ghost before: seq<bool>)
      requires Valid() && Ok(p) && 0 <= Position(p) <= |before| && Size() == |before| + 1 && Value()[..|before|] == before
      modifies this`mContainer
      ensures Valid() && Value() == before[..Position(p)] + [value] + before[Position(p)..]
    {
      ghost var b, k := Bits(mContainer), Position(p);
      assert b[..|before|] == before;
      InsertedBit(b, before, k, value);
      OpenGap(p, 1);
      assert Bits(mContainer) == Copied(b, k, k + 1, |before| - k);
      Put(p, value);
    }

    /** insert(position, n, value) */
    method InsertMany(position: Iterator, n: nat, value: bool)
      requires Valid() && Ok(position) && 0 <= Position(position) <= Size()
      modifies this
      ensures Valid()
      ensures Value() == old(Value())[..Position(position)] + seq(n, _ => value) + old(Value())[Position(position)..]
    {
      ghost var before := Value();
      Resize(Size() + n);
      FillGap(Again(position), n, value, before);
    }

    method FillGap(p: Iterator, n: nat, value: bool, ghost before: seq<bool>)
      requires Valid() && Ok(p) && 0 <= Position(p) <= |before| && Size() == |before| + n && Value()[..|before|] == before
      modifies this`mContainer
      ensures Valid() && Value() == before[..Position(p)] + seq(n, _ => value) + before[Position(p)..]
    {
      ghost var b, k := Bits(mContainer), Position(p);
      assert b[..|before|] == before;
      InsertedBits(b, before, k, n, value);
      OpenGap(p, n);
      assert Bits(mContainer) == Copied(b, k, k + n, |before| - k);
      FillN(p, n, value);
    }

    method FillN(p: Iterator, n: nat, value: bool)
      requires Ok(p) && 0 <= Position(p) && Position(p) + n <= BITS * |mContainer|
      modifies this`mContainer
      ensures |mContainer| == old(|mContainer|)
      ensures Bits(mContainer) == Filled(old(Bits(mContainer)), Position(p), Position(p) + n, value)
    {
      FillBits(p, Plus(p, n), value);
    }

    /** while(iPosition != insert_end) */
    method FillBits(start: Iterator, end: Iterator, value: bool)
      requires Ok(start) && Ok(end) && 0 <= Position(start) <= Position(end) <= BITS * |mContainer|
      modifies this`mContainer
      ensures |mContainer| == old(|mContainer|)
      ensures Bits(mContainer) == Filled(old(Bits(mContainer)), Position(start), Position(end), value)
    {
      var it := start;
      SamePosition(it, end);
      while it != end
        invariant Ok(it) && Position(start) <= Position(it) <= Position(end) && (it == end <==> Position(it) == Position(end))
        invariant |mContainer| == old(|mContainer|)
        invariant Bits(mContainer) == Filled(old(Bits(mContainer)), Position(start), Position(it), value)
        decreases Position(end) - Position(it)
      {
        Put(it, value);
        it := Inc(it);
        SamePosition(it, end);
      }
    }

    /** erase(position) */
    method Erase(position: Iterator) returns (result: Iterator)
      requires Valid() && Ok(position) && 0 <= Position(position) < Size()
      modifies this
      ensures Valid() && Value() == old(Value())[..Position(position)] + old(Value())[Position(position) + 1..]
      ensures result == position
    {
      result := position;
      ErasedBits(Bits(mContainer), Value(), Position(position), 1);
      MoveBits(Inc(position), End(), position);
      Resize(Size() - 1);
    }

    /** erase(first, last) */
    method EraseRange(first: Iterator, last: Iterator) returns (result: Iterator)
      requires Valid() && Ok(first) && Ok(last) && 0 <= Position(first) <= Position(last) <= Size()
      modifies this
      ensures Valid() && Value() == old(Value())[..Position(first)] + old(Value())[Position(last)..]
      ensures result == first
    {
      result := first;
      SamePosition(last, first);
      if first != last {
        var eraseCount := Distance(last, first);
        ErasedBits(Bits(mContainer), Value(), Position(first), eraseCount);
        MoveBits(last, End(), first);
        Resize(Size() - eraseCount);
      } else {
        Unsplit(Value(), Position(first));
      }
    }
  }

  lemma OneMore(b: seq<bool>, k: nat, value: bool)
    ensures b + seq(k, _ => value) + [value] == b + seq(k + 1, _ => value)
  {
  }

  function Filled(b: seq<bool>, from: int, to: int, value: bool): (r: seq<bool>)
    ensures |r| == |b|
  { seq(|b|, k requires 0 <= k < |b| => if from <= k < to then value else b[k]) }

  /** Moving the bits of before from p on up by n leaves room for n bits at p. */
  lemma InsertedBits(b: seq<bool>, before: seq<bool>, p: nat, n: nat, value: bool)
    requires p <= |before| && |before| + n <= |b| && b[..|before|] == before
    ensures Filled(Copied(b, p, p + n, |before| - p), p, p + n, value)[..|before| + n]
            == before[..p] + seq(n, _ => value) + before[p..]
  {
    var l, r := Filled(Copied(b, p, p + n, |before| - p), p, p + n, value)[..|before| + n], before[..p] + seq(n, _ => value) + before[p..];
    forall k | 0 <= k < |l| ensures l[k] == r[k] {
      if k < p { assert b[k] == before[k]; } else if k >= p + n { assert b[k - n] == before[k - n]; }
    }
  }

  lemma InsertedBit(b: seq<bool>, before: seq<bool>, p: nat, value: bool)
    requires p <= |before| && |before| + 1 <= |b| && b[..|before|] == before
    ensures Copied(b, p, p + 1, |before| - p)[p := value][..|before| + 1] == before[..p] + [value] + before[p..]
  {
    InsertedBits(b, before, p, 1, value);
    assert seq(1, _ => value) == [value];
    assert Copied(b, p, p + 1, |before| - p)[p := value] == Filled(Copied(b, p, p + 1, |before| - p), p, p + 1, value);
  }

  lemma Unsplit(b: seq<bool>, p: nat)
    requires p <= |b|
    ensures b[..p] + b[p..] == b
  {
  }

  lemma ErasedBits(b: seq<bool>, before: seq<bool>, p: nat, n: nat)
    requires p + n <= |before| <= |b| && b[..|before|] == before
    ensures Copied(b, p + n, p, |before| - (p + n))[..|before| - n] == before[..p] + before[p + n..]
  {
    var l, r := Copied(b, p + n, p, |before| - (p + n))[..|before| - n], before[..p] + before[p + n..];
    forall k | 0 <= k < |l| ensures l[k] == r[k] {
      if k < p { assert b[k] == before[k]; } else { assert b[k + n] == before[k + n]; }
    }
  }

  lemma FilledBits(s: seq<Word>, words: nat, element: Word, value: bool)
    requires forall j :: 0 <= j < BITS ==> element[j] == value
    ensures words <= |s| ==> Bits(s[..words]) == Bits(s)[..BITS * words]
    ensures words > |s| ==> Bits(s + seq(words - |s|, _ => element)) == Bits(s) + seq(BITS * (words - |s|), _ => value)
  {
    ResizedBits(s, words, element);
    if words > |s| {
      var t := seq(words - |s|, _ => element);
      Extended(s, t);
      forall k | 0 <= k < BITS * |t| ensures Bits(t)[k] == value { BitAt(t, k, WordOf(k), BitOf(k)); }
    }
  }

  lemma Extended(s: seq<Word>, t: seq<Word>)
    ensures Bits(s + t) == Bits(s) + Bits(t)
  {
    forall k | 0 <= k < BITS * |s + t| ensures Bits(s + t)[k] == (Bits(s) + Bits(t))[k] {
      var i, j := WordOf(k), BitOf(k);
      BitAt(s + t, k, i, j);
      if i < |s| { BitAt(s, k, i, j); } else { BitAt(t, k - BITS * |s|, i - |s|, j); }
    }
  }

  lemma ResizedBits(s: seq<Word>, words: nat, fill: Word)
    ensures words <= |s| ==> Bits(s[..words]) == Bits(s)[..BITS * words]
    ensures words > |s| ==> Bits(s + seq(words - |s|, _ => fill))[..BITS * |s|] == Bits(s)
  {
    if words <= |s| {
      Extended(s[..words], s[words..]);
      assert s == s[..words] + s[words..];
    } else {
      Extended(s, seq(words - |s|, _ => fill));
    }
  }

  lemma CopiedNone(b: seq<bool>, from: nat, to: nat)
    requires from <= |b| && to <= |b|
    ensures IsCopy(b, b, from, to, 0)
  {
  }

  lemma CopiedForward(b: seq<bool>, r: seq<bool>, from: nat, to: nat, n: nat)
    requires to <= from && from + n < |b| && IsCopy(b, r, from, to, n)
    ensures IsCopy(b, r[to + n := r[from + n]], from, to, n + 1)
  {
    var t, n' := r[to + n := r[from + n]], n + 1;
    assert CopyAt(b, r, from, to, n, from + n);
    forall k | 0 <= k < |b| ensures CopyAt(b, t, from, to, n', k) { assert CopyAt(b, r, from, to, n, k); }
  }

  lemma CopiedBackward(b: seq<bool>, r: seq<bool>, from: nat, to: nat, n: nat)
    requires 0 < from <= to && IsCopy(b, r, from, to, n)
    ensures IsCopy(b, r[to - 1 := r[from - 1]], from - 1, to - 1, n + 1)
  {
    var t, from', to', n' := r[to - 1 := r[from - 1]], from - 1, to - 1, n + 1;
    assert CopyAt(b, r, from, to, n, from - 1);
    forall k | 0 <= k < |b| ensures CopyAt(b, t, from', to', n', k) { assert CopyAt(b, r, from, to, n, k); }
  }
}
