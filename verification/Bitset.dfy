/** eastl::bitset<N>: the general multi-word base, and the wrapper that keeps the unused high bits zero. */
module Bitset {
  import opened Words

  const MAX_SIZE: nat := 0xFFFF_FFFF_FFFF_FFFF

  /** Positions are words, too: incrementing the largest wraps around. */
  type SizeT = x: nat | x <= MAX_SIZE

  function After(last: SizeT): SizeT { if last == MAX_SIZE then 0 else last + 1 }

  // ---------------------------------------------------------------------------------------------
  // Searching and counting in bit strings
  // ---------------------------------------------------------------------------------------------

  /** The first set bit from position from on, or |b|. */
  function NextSet(b: seq<bool>, from: nat): (r: nat)
    decreases |b| - from
  { if from >= |b| then |b| else if b[from] then from else NextSet(b, from + 1) }

  /** The last set bit below position upto, or |b|. */
  function PrevSet(b: seq<bool>, upto: nat): (r: nat)
    decreases upto
  { if upto == 0 then |b| else if upto - 1 < |b| && b[upto - 1] then upto - 1 else PrevSet(b, upto - 1) }

  function CountSet(b: seq<bool>): nat {
    if b == [] then 0 else CountSet(b[..|b| - 1]) + if b[|b| - 1] then 1 else 0
  }

  lemma {:induction false} NextSetIs(b: seq<bool>, from: nat, r: nat)
    requires from <= r <= |b| && (forall k :: from <= k < r ==> !b[k]) && (r < |b| ==> b[r])
    ensures NextSet(b, from) == r
    decreases r - from
  {
    if from < r { NextSetIs(b, from + 1, r); }
  }

  lemma {:induction false} NextSetFinds(b: seq<bool>, from: nat)
    requires from <= |b|
    ensures from <= NextSet(b, from) <= |b|
    ensures NextSet(b, from) < |b| ==> b[NextSet(b, from)]
    ensures forall k :: from <= k < NextSet(b, from) ==> !b[k]
    decreases |b| - from
  {
    if from < |b| { NextSetFinds(b, from + 1); }
  }

  lemma {:induction false} PrevSetIs(b: seq<bool>, upto: nat, r: nat)
    requires r < upto <= |b| && b[r] && forall k :: r < k < upto ==> !b[k]
    ensures PrevSet(b, upto) == r
    decreases upto
  {
    if r < upto - 1 { PrevSetIs(b, upto - 1, r); }
  }

  lemma {:induction false} PrevSetNone(b: seq<bool>, upto: nat)
    requires forall k :: 0 <= k < upto && k < |b| ==> !b[k]
    ensures PrevSet(b, upto) == |b|
    decreases upto
  {
    if upto > 0 { PrevSetNone(b, upto - 1); }
  }

  lemma {:induction false} PrevSetFinds(b: seq<bool>, upto: nat)
    ensures PrevSet(b, upto) <= |b|
    ensures PrevSet(b, upto) < |b| ==> PrevSet(b, upto) < upto && b[PrevSet(b, upto)]
    ensures forall k :: 0 <= k < upto && k < |b| && (PrevSet(b, upto) < k || PrevSet(b, upto) == |b|) ==> !b[k]
    decreases upto
  {
    if upto > 0 { PrevSetFinds(b, upto - 1); }
  }

  /** for(i = findFirst(); i != N; i = findNext(i)) and for(i = findLast(); i != N; i = findPrev(i)) */
  function Upwards(b: seq<bool>, from: nat): seq<nat>
    requires from <= |b|
    decreases |b| - from
  {
    NextSetFinds(b, from);
    if NextSet(b, from) == |b| then [] else [NextSet(b, from)] + Upwards(b, NextSet(b, from) + 1)
  }

  function Downwards(b: seq<bool>, upto: nat): seq<nat>
    requires upto <= |b|
    decreases upto
  {
    PrevSetFinds(b, upto);
    if PrevSet(b, upto) == |b| then [] else [PrevSet(b, upto)] + Downwards(b, PrevSet(b, upto))
  }

  predicate Ascending(s: seq<nat>) { forall i, j :: 0 <= i < j < |s| ==> s[i] < s[j] }

  predicate Descending(s: seq<nat>) { forall i, j :: 0 <= i < j < |s| ==> s[i] > s[j] }

  lemma {:induction false} CountConcat(a: seq<bool>, b: seq<bool>)
    ensures CountSet(a + b) == CountSet(a) + CountSet(b)
    decreases |b|
  {
    if b == [] {
      assert a + b == a;
    } else {
      assert (a + b)[..|a + b| - 1] == a + b[..|b| - 1];
      CountConcat(a, b[..|b| - 1]);
    }
  }

  lemma {:induction false} CountNone(b: seq<bool>)
    requires forall k :: 0 <= k < |b| ==> !b[k]
    ensures CountSet(b) == 0
    decreases |b|
  {
    if b != [] { CountNone(b[..|b| - 1]); }
  }

  lemma CountGap(b: seq<bool>, from: nat, r: nat)
    requires from <= r <= |b| && forall k :: from <= k < r ==> !b[k]
    ensures CountSet(b[from..]) == CountSet(b[r..]) && CountSet(b[..r]) == CountSet(b[..from])
    ensures r < |b| && b[r] ==> CountSet(b[r..]) == 1 + CountSet(b[r + 1..]) && CountSet(b[..r + 1]) == CountSet(b[..r]) + 1
  {
    assert b[from..] == b[from..r] + b[r..] && b[..r] == b[..from] + b[from..r];
    CountConcat(b[from..r], b[r..]);
    CountConcat(b[..from], b[from..r]);
    CountNone(b[from..r]);
    if r < |b| && b[r] {
      assert b[r..] == [b[r]] + b[r + 1..] && b[..r + 1] == b[..r] + [b[r]];
      CountConcat([b[r]], b[r + 1..]);
      CountConcat(b[..r], [b[r]]);
      assert CountSet([true]) == CountSet([]) + 1;
    }
  }

  lemma Prepend(r: nat, s: seq<nat>)
    ensures Ascending(s) && (forall k :: k in s ==> r < k) ==> Ascending([r] + s)
    ensures Descending(s) && (forall k :: k in s ==> k < r) ==> Descending([r] + s)
  {
    var t := [r] + s;
    if Ascending(s) && (forall k :: k in s ==> r < k) {
      forall i, j | 0 <= i < j < |t| ensures t[i] < t[j] { assert t[j] == s[j - 1] && s[j - 1] in s; }
    }
    if Descending(s) && (forall k :: k in s ==> k < r) {
      forall i, j | 0 <= i < j < |t| ensures t[i] > t[j] { assert t[j] == s[j - 1] && s[j - 1] in s; }
    }
  }

  lemma UpwardsStep(b: seq<bool>, from: nat)
    requires from <= |b|
    ensures var r := NextSet(b, from);
      from <= r <= |b| && Upwards(b, from) == if r == |b| then [] else [r] + Upwards(b, r + 1)
  {
    NextSetFinds(b, from);
  }

  /** The positions of all set bits from position from on, ascending. */
  ghost predicate AreSetFrom(b: seq<bool>, from: nat, found: seq<nat>)
    requires from <= |b|
  {
    && Ascending(found) && |found| == CountSet(b[from..])
    && forall k :: k in found <==> from <= k < |b| && b[k]
  }

  lemma SetFromPrepend(b: seq<bool>, from: nat, r: nat, rest: seq<nat>)
    requires from <= r < |b| && b[r] && (forall k :: from <= k < r ==> !b[k]) && AreSetFrom(b, r + 1, rest)
    ensures AreSetFrom(b, from, [r] + rest)
  {
    CountGap(b, from, r);
    Prepend(r, rest);
  }

  /** The upward search meets exactly the set bits, in ascending order, as many as count() says. */
  lemma {:induction false} UpwardsIsComplete(b: seq<bool>, from: nat)
    requires from <= |b|
    ensures AreSetFrom(b, from, Upwards(b, from))
    decreases |b| - from
  {
    var r := NextSet(b, from);
    NextSetFinds(b, from);
    UpwardsStep(b, from);
    if r < |b| {
      UpwardsIsComplete(b, r + 1);
      SetFromPrepend(b, from, r, Upwards(b, r + 1));
    } else {
      CountNone(b[from..]);
    }
  }

  lemma AllUpwards(b: seq<bool>)
    ensures Ascending(Upwards(b, 0)) && |Upwards(b, 0)| == CountSet(b)
    ensures forall k :: k in Upwards(b, 0) <==> 0 <= k < |b| && b[k]
  {
    UpwardsIsComplete(b, 0);
    assert b[0..] == b;
  }

  lemma {:induction false} DownwardsIsComplete(b: seq<bool>, upto: nat)
    requires upto <= |b|
    ensures Descending(Downwards(b, upto)) && |Downwards(b, upto)| == CountSet(b[..upto])
    ensures forall k :: k in Downwards(b, upto) <==> 0 <= k < upto && b[k]
    decreases upto
  {
    var r := PrevSet(b, upto);
    PrevSetFinds(b, upto);
    if r < |b| {
      DownwardsIsComplete(b, r);
      Prepend(r, Downwards(b, r));
      CountGap(b, r + 1, upto);
      CountGap(b, r, r);
      forall k | 0 <= k < upto && b[k] ensures k in Downwards(b, upto) { assert k == r || k in Downwards(b, r); }
    } else {
      CountNone(b[..upto]);
    }
  }

  lemma DownwardsStep(b: seq<bool>, upto: nat)
    requires upto <= |b|
    ensures var r := PrevSet(b, upto);
      (r < upto || r == |b|) && Downwards(b, upto) == if r == |b| then [] else [r] + Downwards(b, r)
  {
    PrevSetFinds(b, upto);
  }

  lemma AllDownwards(b: seq<bool>)
    ensures Descending(Downwards(b, |b|)) && |Downwards(b, |b|)| == CountSet(b)
    ensures forall k :: k in Downwards(b, |b|) <==> 0 <= k < |b| && b[k]
  {
    DownwardsIsComplete(b, |b|);
    assert b[..|b|] == b;
  }

  // ---------------------------------------------------------------------------------------------
  // Searching and counting word by word
  // ---------------------------------------------------------------------------------------------

  lemma BitsConcat(s: seq<Word>, i: nat)
    requires i < |s|
    ensures Bits(s[..i + 1]) == Bits(s[..i]) + s[i]
  {
    forall k | 0 <= k < BITS * i + BITS ensures Bits(s[..i + 1])[k] == (Bits(s[..i]) + s[i])[k] {
      if k >= BITS * i { BitAt(s[..i + 1], k, i, k - BITS * i); }
    }
  }

  /** Nothing set from from up to the end of word i - 1, and word i searched from bit j on. */
  lemma FoundUp(s: seq<Word>, from: nat, i: nat, w: Word)
    requires i < |s| && from < BITS * i + BITS
    requires forall k :: from <= k < BITS * i ==> !Bits(s)[k]
    requires forall j :: 0 <= j < BITS ==> w[j] == (s[i][j] && BITS * i + j >= from)
    ensures NextSet(w, 0) < BITS ==> NextSet(Bits(s), from) == BITS * i + NextSet(w, 0)
    ensures NextSet(w, 0) == BITS ==> forall k :: from <= k < BITS * i + BITS ==> !Bits(s)[k]
  {
    NextSetFinds(w, 0);
    var r := NextSet(w, 0);
    forall k | from <= k < BITS * i + r ensures !Bits(s)[k] {
      if k >= BITS * i {
        BitAt(s, k, i, k - BITS * i);
        assert !w[k - BITS * i];
      }
    }
    if r < BITS {
      BitAt(s, BITS * i + r, i, r);
      NextSetIs(Bits(s), from, BITS * i + r);
    }
  }

  lemma FoundDown(s: seq<Word>, upto: nat, i: nat, w: Word)
    requires i < |s| && BITS * i <= upto <= BITS * |s|
    requires forall k :: BITS * i + BITS <= k < upto ==> !Bits(s)[k]
    requires forall j :: 0 <= j < BITS ==> w[j] == (s[i][j] && BITS * i + j < upto)
    ensures PrevSet(w, BITS) < BITS ==> PrevSet(Bits(s), upto) == BITS * i + PrevSet(w, BITS)
    ensures PrevSet(w, BITS) >= BITS ==> forall k :: BITS * i <= k < upto ==> !Bits(s)[k]
  {
    PrevSetFinds(w, BITS);
    var r := PrevSet(w, BITS);
    forall k | BITS * i <= k < upto && (r >= BITS || k > BITS * i + r) ensures !Bits(s)[k] {
      if k < BITS * i + BITS {
        BitAt(s, k, i, k - BITS * i);
        assert !w[k - BITS * i];
      }
    }
    if r < BITS {
      BitAt(s, BITS * i + r, i, r);
      PrevSetIs(Bits(s), upto, BITS * i + r);
    }
  }

  // ---------------------------------------------------------------------------------------------
  // The general base: any number of words
  // ---------------------------------------------------------------------------------------------

  class BitsetBase {
    const mWord: array<Word>

    constructor (words: nat)
      requires words > 0
      ensures fresh(mWord) && mWord.Length == words && forall i :: 0 <= i < words ==> mWord[i] == Zero()
    {
      mWord := new Word[words](_ => Zero());
    }

    method MoveWordsUp(n: nat)
      requires n > 0
      modifies mWord
      ensures mWord[..] == WordsUp(old(mWord[..]), n)
    {
      var i := mWord.Length - 1;
      while i >= 0
        invariant -1 <= i < mWord.Length
        invariant forall k :: 0 <= k < mWord.Length ==> mWord[k] == if k <= i then old(mWord[..])[k] else WordUp(old(mWord[..]), n, k)
      {
        mWord[i] := if n <= i then mWord[i - n] else Zero();
        i := i - 1;
      }
    }

    method MoveBitsUp(n: nat)
      requires n < BITS && mWord.Length > 0
      modifies mWord
      ensures mWord[..] == BitsUp(old(mWord[..]), n)
    {
      var i := mWord.Length - 1;
      while i > 0
        invariant 0 <= i < mWord.Length
        invariant forall k :: 0 <= k < mWord.Length ==> mWord[k] == if k <= i then old(mWord[..])[k] else BitUp(old(mWord[..]), n, k)
      {
        mWord[i] := Or(Shl(mWord[i], n), Shr(mWord[i - 1], BITS - n));
        i := i - 1;
      }
      mWord[0] := Shl(mWord[0], n);
    }

    method ShiftWordsUp(n: nat)
      modifies mWord
      ensures mWord[..] == WordsUp(old(mWord[..]), n)
    {
      if n > 0 { MoveWordsUp(n); } else { NoWordShift(mWord[..], n); }
    }

    method ShiftBitsUp(n: nat)
      requires n < BITS && mWord.Length > 0
      modifies mWord
      ensures mWord[..] == BitsUp(old(mWord[..]), n)
    {
      if n > 0 { MoveBitsUp(n); } else { NoBitShift(mWord[..], n); }
    }

    /** operator<<= */
    method ShiftLeft(n: nat)
      requires mWord.Length > 0
      modifies mWord
      ensures Bits(mWord[..]) == ShiftedUp(old(Bits(mWord[..])), n)
    {
      ShiftUpInPhases(mWord[..], n);
      ShiftWordsUp(WordOf(n));
      ShiftBitsUp(BitOf(n));
    }

    method MoveWordsDown(n: nat)
      requires n > 0
      modifies mWord
      ensures mWord[..] == WordsDown(old(mWord[..]), n)
    {
      for i := 0 to mWord.Length
        invariant forall k :: 0 <= k < mWord.Length ==> mWord[k] == if k >= i then old(mWord[..])[k] else WordDown(old(mWord[..]), n, k)
      {
        mWord[i] := if n < mWord.Length - i then mWord[i + n] else Zero();
      }
    }

    method MoveBitsDown(n: nat)
      requires n < BITS && mWord.Length > 0
      modifies mWord
      ensures mWord[..] == BitsDown(old(mWord[..]), n)
    {
      for i := 0 to mWord.Length - 1
        invariant forall k :: 0 <= k < mWord.Length ==> mWord[k] == if k >= i then old(mWord[..])[k] else BitDown(old(mWord[..]), n, k)
      {
        mWord[i] := Or(Shr(mWord[i], n), Shl(mWord[i + 1], BITS - n));
      }
      mWord[mWord.Length - 1] := Shr(mWord[mWord.Length - 1], n);
    }

    method ShiftWordsDown(n: nat)
      modifies mWord
      ensures mWord[..] == WordsDown(old(mWord[..]), n)
    {
      if n > 0 { MoveWordsDown(n); } else { NoWordShift(mWord[..], n); }
    }

    method ShiftBitsDown(n: nat)
      requires n < BITS && mWord.Length > 0
      modifies mWord
      ensures mWord[..] == BitsDown(old(mWord[..]), n)
    {
      if n > 0 { MoveBitsDown(n); } else { NoBitShift(mWord[..], n); }
    }

    /** operator>>= */
    method ShiftRight(n: nat)
      requires mWord.Length > 0
      modifies mWord
      ensures Bits(mWord[..]) == ShiftedDown(old(Bits(mWord[..])), n)
    {
      ShiftDownInPhases(mWord[..], n);
      ShiftWordsDown(WordOf(n));
      ShiftBitsDown(BitOf(n));
    }

    /** Applies an operation to every word: flip, set, reset, and the operators with another bitset. */
    method Flip()
      modifies mWord
      ensures Bits(mWord[..]) == Flipped(old(Bits(mWord[..])))
    {
      for i := 0 to mWord.Length
        invariant forall k :: 0 <= k < mWord.Length ==> mWord[k] == if k >= i then old(mWord[..])[k] else Not(old(mWord[..])[k])
      {
        mWord[i] := Not(mWord[i]);
      }
    }

    /** operator&=, operator|= and operator^=; x may be this bitset itself. */
    method Combine(op: Operator, x: BitsetBase)
      requires x.mWord.Length == mWord.Length
      modifies mWord
      ensures Bits(mWord[..]) == Combined(op, old(Bits(mWord[..])), old(Bits(x.mWord[..])))
    {
      ghost var s, t := mWord[..], x.mWord[..];
      for i := 0 to mWord.Length
        invariant forall k :: 0 <= k < mWord.Length ==> mWord[k] == if k >= i then s[k] else Apply(op, s[k], t[k])
        invariant forall k :: i <= k < mWord.Length ==> x.mWord[k] == t[k]
      {
        mWord[i] := Apply(op, mWord[i], x.mWord[i]);
      }
      CombinedWords(op, s, t, mWord[..]);
    }

    method Fill(value: bool)
      modifies mWord
      ensures Bits(mWord[..]) == seq(BITS * mWord.Length, _ => value)
    {
      for i := 0 to mWord.Length
        invariant forall k :: 0 <= k < i ==> mWord[k] == if value then Not(Zero()) else Zero()
      {
        mWord[i] := if value then Not(Zero()) else Zero();
      }
    }

    method Set(i: nat, value: bool)
      requires i < BITS * mWord.Length
      modifies mWord
      ensures Bits(mWord[..]) == old(Bits(mWord[..]))[i := value]
    {
      UpdateBit(mWord[..], i, value);
      WithBitIsUpdate(mWord[WordOf(i)], BitOf(i), value);
      mWord[WordOf(i)] := WithBit(mWord[WordOf(i)], BitOf(i), value);
      assert mWord[..] == old(mWord[..])[WordOf(i) := mWord[WordOf(i)]];
    }

    method Count() returns (n: nat)
      ensures n == CountSet(Bits(mWord[..]))
    {
      n := 0;
      for i := 0 to mWord.Length
        invariant n == CountSet(Bits(mWord[..i]))
      {
        BitsConcat(mWord[..], i);
        assert mWord[..][..i + 1] == mWord[..i + 1] && mWord[..][..i] == mWord[..i];
        CountConcat(Bits(mWord[..i]), mWord[i]);
        n := n + CountSet(mWord[i]);
      }
      assert mWord[..mWord.Length] == mWord[..];
    }

    method FindFirst() returns (r: nat)
      ensures r == NextSet(Bits(mWord[..]), 0)
    {
      for i := 0 to mWord.Length
        invariant forall k :: 0 <= k < BITS * i ==> !Bits(mWord[..])[k]
      {
        FoundUp(mWord[..], 0, i, mWord[i]);
        NextSetFinds(mWord[i], 0);
        var bit := NextSet(mWord[i], 0);
        if bit != BITS { return BITS * i + bit; }
      }
      NextSetIs(Bits(mWord[..]), 0, BITS * mWord.Length);
      r := BITS * mWord.Length;
    }

    method FindNext(last: SizeT) returns (r: nat)
      ensures r == NextSet(Bits(mWord[..]), After(last))
    {
      var start := After(last);
      var i, bit := WordOf(start), BitOf(start);
      if i < mWord.Length {
        var w := And(mWord[i], Shl(Not(Zero()), bit));
        while true
          invariant 0 <= i < mWord.Length && start < BITS * i + BITS
          invariant forall k :: start <= k < BITS * i ==> !Bits(mWord[..])[k]
          invariant forall j :: 0 <= j < BITS ==> w[j] == (mWord[i][j] && BITS * i + j >= start)
          decreases mWord.Length - i
        {
          FoundUp(mWord[..], start, i, w);
          NextSetFinds(w, 0);
          if NextSet(w, 0) != BITS { return BITS * i + NextSet(w, 0); }
          i := i + 1;
          if i < mWord.Length { w := mWord[i]; } else { break; }
        }
        NextSetIs(Bits(mWord[..]), start, BITS * mWord.Length);
      }
      r := BITS * mWord.Length;
    }

    method FindLast() returns (r: nat)
      ensures r == PrevSet(Bits(mWord[..]), BITS * mWord.Length)
    {
      var i := mWord.Length;
      while i > 0
        invariant 0 <= i <= mWord.Length
        invariant forall k :: BITS * i <= k < BITS * mWord.Length ==> !Bits(mWord[..])[k]
      {
        FoundDown(mWord[..], BITS * mWord.Length, i - 1, mWord[i - 1]);
        PrevSetFinds(mWord[i - 1], BITS);
        var bit := PrevSet(mWord[i - 1], BITS);
        if bit != BITS { return BITS * (i - 1) + bit; }
        i := i - 1;
      }
      PrevSetNone(Bits(mWord[..]), BITS * mWord.Length);
      r := BITS * mWord.Length;
    }

    /** The word index of last must be inside the words. */
    method FindPrev(last: nat) returns (r: nat)
      requires last < BITS * mWord.Length
      ensures r == PrevSet(Bits(mWord[..]), last)
    {
      if last > 0 {
        var i, bit := WordOf(last), BitOf(last);
        var w := And(mWord[i], Shr(Shr(Not(Zero()), BITS - 1 - bit), 1));
        while true
          invariant 0 <= i < mWord.Length && BITS * i <= last
          invariant forall k :: BITS * i + BITS <= k < last ==> !Bits(mWord[..])[k]
          invariant forall j :: 0 <= j < BITS ==> w[j] == (mWord[i][j] && BITS * i + j < last)
          decreases i
        {
          FoundDown(mWord[..], last, i, w);
          PrevSetFinds(w, BITS);
          if PrevSet(w, BITS) != BITS { return BITS * i + PrevSet(w, BITS); }
          if i == 0 { break; }
          i := i - 1;
          w := mWord[i];
        }
        PrevSetNone(Bits(mWord[..]), last);
      }
      r := BITS * mWord.Length;
    }
  }

  datatype Operator = AndOp | OrOp | XorOp

  function Apply(op: Operator, w: Word, x: Word): Word {
    match op
    case AndOp => And(w, x)
    case OrOp => Or(w, x)
    case XorOp => Xor(w, x)
  }

  function ApplyBit(op: Operator, p: bool, q: bool): bool {
    match op
    case AndOp => p && q
    case OrOp => p || q
    case XorOp => p != q
  }

  /** The operator bit by bit. */
  function Combined(op: Operator, b: seq<bool>, c: seq<bool>): (r: seq<bool>)
    requires |b| == |c|
    ensures |r| == |b|
  { seq(|b|, k requires 0 <= k < |b| => ApplyBit(op, b[k], c[k])) }

  lemma CombinedWords(op: Operator, s: seq<Word>, t: seq<Word>, r: seq<Word>)
    requires |s| == |t| == |r| && forall k :: 0 <= k < |s| ==> r[k] == Apply(op, s[k], t[k])
    ensures Bits(r) == Combined(op, Bits(s), Bits(t))
  {
    forall k | 0 <= k < BITS * |s| ensures Bit(r, k) == ApplyBit(op, Bit(s, k), Bit(t, k)) {
      assert r[WordOf(k)] == Apply(op, s[WordOf(k)], t[WordOf(k)]);
    }
  }

  function Flipped(b: seq<bool>): (r: seq<bool>)
    ensures |r| == |b|
  { seq(|b|, k requires 0 <= k < |b| => !b[k]) }

  lemma NoWordShift(s: seq<Word>, n: nat)
    requires n == 0
    ensures WordsUp(s, n) == s && WordsDown(s, n) == s
  {
  }

  lemma NoBitShift(s: seq<Word>, n: nat)
    requires n == 0
    ensures BitsUp(s, n) == s && BitsDown(s, n) == s
  {
    forall i | 0 <= i < |s| ensures BitUp(s, 0, i) == s[i] && BitDown(s, 0, i) == s[i] {}
  }

  // ---------------------------------------------------------------------------------------------
  // The wrapper: N bits
  // ---------------------------------------------------------------------------------------------

  function WordCount(n: nat): (c: nat)
    ensures c > 0 && n <= BITS * c && (n > 0 ==> BITS * (c - 1) < n)
  { if n == 0 then 1 else WordOf(n - 1) + 1 }

  /** Zero from position n on. */
  predicate HighBitsClear(b: seq<bool>, n: nat) { forall k :: n <= k < |b| ==> !b[k] }

  function Cleared(b: seq<bool>, n: nat): (r: seq<bool>)
    ensures |r| == |b|
  { seq(|b|, k requires 0 <= k < |b| => k < n && b[k]) }

  /** Masking the last word clears exactly the unused bits. */
  lemma MaskClears(s: seq<Word>, n: nat)
    requires |s| == WordCount(n) && (BitOf(n) != 0 || n == 0)
    ensures var last := |s| - 1; Bits(s[last := And(s[last], Not(Shl(Not(Zero()), BitOf(n))))]) == Cleared(Bits(s), n)
  {
    var last := |s| - 1;
    var w := And(s[last], Not(Shl(Not(Zero()), BitOf(n))));
    var t := s[last := w];
    forall k | 0 <= k < BITS * |s| ensures Bits(t)[k] == Cleared(Bits(s), n)[k] {
      var i, j := WordOf(k), BitOf(k);
      BitAt(t, k, i, j);
      BitAt(s, k, i, j);
      if n == 0 { assert BitOf(0) == 0; } else { assert WordOf(n) == last; }
    }
  }

  lemma ValueOfSearch(b: seq<bool>, n: nat, from: nat)
    requires n <= |b| && HighBitsClear(b, n)
    ensures var r := NextSet(b, from); NextSet(b[..n], from) == if r < n then r else n
  {
    if from < n {
      NextSetFinds(b, from);
      var r := NextSet(b, from);
      NextSetIs(b[..n], from, if r < n then r else n);
    } else if from < |b| {
      NextSetFinds(b, from);
    }
  }

  lemma ValueOfSearchBack(b: seq<bool>, n: nat, upto: nat)
    requires n <= |b| && HighBitsClear(b, n) && upto <= |b|
    ensures var r := PrevSet(b, upto); PrevSet(b[..n], upto) == if r < n then r else n
  {
    PrevSetFinds(b, upto);
    PrevSetFinds(b[..n], upto);
    var r, q := PrevSet(b, upto), PrevSet(b[..n], upto);
    if r < n { assert q >= r; }
  }

  class Bitset {
    const N: nat
    const base: BitsetBase

    /** The unused high bits of the last word are zero. */
    ghost predicate Valid()
      reads base.mWord
    { base.mWord.Length == WordCount(N) && HighBitsClear(Bits(base.mWord[..]), N) }

    ghost function Value(): (v: seq<bool>)
      reads base.mWord
      requires Valid()
      ensures |v| == N
    { Bits(base.mWord[..])[..N] }

    constructor (n: nat)
      ensures Valid() && N == n && fresh(base.mWord) && Value() == seq(n, _ => false)
    {
      N := n;
      base := new BitsetBase(WordCount(n));
    }

    method ClearUnused()
      requires base.mWord.Length == WordCount(N)
      modifies base.mWord
      ensures Valid() && Value() == old(Bits(base.mWord[..])[..N])
    {
      var last := base.mWord.Length - 1;
      if BitOf(N) != 0 || N == 0 {
        MaskClears(base.mWord[..], N);
        base.mWord[last] := And(base.mWord[last], Not(Shl(Not(Zero()), BitOf(N))));
        assert base.mWord[..] == old(base.mWord[..])[last := base.mWord[last]];
      } else {
        assert WordOf(N) == WordCount(N);
      }
    }

    method ShiftLeft(n: nat)
      requires Valid()
      modifies base.mWord
      ensures Valid() && Value() == ShiftedUp(old(Value()), n)
    {
      if n < N {
        base.ShiftLeft(n);
        ClearUnused();
      } else {
        base.Fill(false);
      }
    }

    method ShiftRight(n: nat)
      requires Valid()
      modifies base.mWord
      ensures Valid() && Value() == ShiftedDown(old(Value()), n)
    {
      if n < N { base.ShiftRight(n); } else { base.Fill(false); }
    }

    method SetAll()
      requires Valid()
      modifies base.mWord
      ensures Valid() && Value() == seq(N, _ => true)
    {
      base.Fill(true);
      ClearUnused();
    }

    method ResetAll()
      requires Valid()
      modifies base.mWord
      ensures Valid() && Value() == seq(N, _ => false)
    {
      base.Fill(false);
    }

    method Combine(op: Operator, x: Bitset)
      requires Valid() && x.Valid() && x.N == N
      modifies base.mWord
      ensures Valid() && Value() == Combined(op, old(Value()), old(x.Value()))
    {
      base.Combine(op, x.base);
    }

    method FlipAll()
      requires Valid()
      modifies base.mWord
      ensures Valid() && Value() == Flipped(old(Value()))
    {
      base.Flip();
      ClearUnused();
    }

    /** Out of range, nothing changes. */
    method Set(i: nat, value: bool)
      requires Valid()
      modifies base.mWord
      ensures Valid() && Value() == if i < N then old(Value())[i := value] else old(Value())
    {
      if i < N { base.Set(i, value); }
    }

    method Flip(i: nat)
      requires Valid()
      modifies base.mWord
      ensures Valid() && Value() == if i < N then old(Value())[i := !old(Value())[i]] else old(Value())
    {
      if i < N {
        var value := Test(i);
        base.Set(i, !value);
      }
    }

    method Test(i: nat) returns (value: bool)
      requires Valid()
      ensures value == (i < N && Value()[i])
    {
      value := i < N && base.mWord[WordOf(i)][BitOf(i)];
    }

    method Count() returns (n: nat)
      requires Valid()
      ensures n == CountSet(Value())
    {
      n := base.Count();
      CountGap(Bits(base.mWord[..]), N, |Bits(base.mWord[..])|);
      assert Bits(base.mWord[..])[..|Bits(base.mWord[..])|] == Bits(base.mWord[..]);
    }

    method FindFirst() returns (r: nat)
      requires Valid()
      ensures r == NextSet(Value(), 0)
    {
      var i := base.FindFirst();
      ValueOfSearch(Bits(base.mWord[..]), N, 0);
      r := if i < N then i else N;
    }

    method FindNext(last: SizeT) returns (r: nat)
      requires Valid()
      ensures r == NextSet(Value(), After(last))
    {
      var i := base.FindNext(last);
      ValueOfSearch(Bits(base.mWord[..]), N, After(last));
      r := if i < N then i else N;
    }

    method FindLast() returns (r: nat)
      requires Valid()
      ensures r == PrevSet(Value(), N)
    {
      var i := base.FindLast();
      ValueOfSearchBack(Bits(base.mWord[..]), N, BITS * base.mWord.Length);
      PrevBeyond(Value(), BITS * base.mWord.Length);
      r := if i < N then i else N;
    }

    method FindPrev(last: nat) returns (r: nat)
      requires Valid() && last < BITS * WordCount(N)
      ensures r == PrevSet(Value(), last)
    {
      var i := base.FindPrev(last);
      ValueOfSearchBack(Bits(base.mWord[..]), N, last);
      r := if i < N then i else N;
    }

    /** for(i = findFirst(); i != N; i = findNext(i)): exactly the set bits, ascending, count() many. */
    method SetBits() returns (found: seq<nat>)
      requires Valid() && N <= MAX_SIZE
      ensures Ascending(found) && |found| == CountSet(Value())
      ensures forall k :: k in found <==> 0 <= k < N && Value()[k]
    {
      ghost var from, all := 0, Upwards(Value(), 0);
      found := [];
      var i := FindFirst();
      while i != N
        invariant 0 <= from <= N && i == NextSet(Value(), from) && all == found + Upwards(Value(), from)
        decreases N - from
      {
        UpwardsStep(Value(), from);
        found, from := found + [i], i + 1;
        i := FindNext(i);
      }
      UpwardsStep(Value(), from);
      assert found == all;
      AllUpwards(Value());
    }

    /** for(i = findLast(); i != N; i = findPrev(i)): the same bits, descending. */
    method SetBitsDown() returns (found: seq<nat>)
      requires Valid()
      ensures Descending(found) && |found| == CountSet(Value())
      ensures forall k :: k in found <==> 0 <= k < N && Value()[k]
    {
      ghost var upto, all := N, Downwards(Value(), N);
      found := [];
      var i := FindLast();
      while i != N
        invariant 0 <= upto <= N && i == PrevSet(Value(), upto) && all == found + Downwards(Value(), upto)
        decreases upto
      {
        DownwardsStep(Value(), upto);
        found, upto := found + [i], i;
        i := FindPrev(i);
      }
      DownwardsStep(Value(), upto);
      assert found == all;
      AllDownwards(Value());
    }
  }

  lemma {:induction false} PrevBeyond(b: seq<bool>, upto: nat)
    requires upto >= |b|
    ensures PrevSet(b, upto) == PrevSet(b, |b|)
    decreases upto
  {
    if upto > |b| { PrevBeyond(b, upto - 1); }
  }
}
