/** Machine words as sequences of bits, lowest bit first, and bit strings stored in arrays of words. */
module Words {

  const BITS: nat := 64

  type Word = w: seq<bool> | |w| == BITS witness seq(BITS, _ => false)

  /** w << n and w >> n, for n below the word width */
  function Shl(w: Word, n: nat): (r: Word)
  { seq(BITS, i requires 0 <= i < BITS => i >= n && w[i - n]) }

  function Shr(w: Word, n: nat): (r: Word)
  { seq(BITS, i requires 0 <= i < BITS => i + n < BITS && w[i + n]) }

  function Or(w: Word, x: Word): (r: Word)
  { seq(BITS, i requires 0 <= i < BITS => w[i] || x[i]) }

  function And(w: Word, x: Word): (r: Word)
  { seq(BITS, i requires 0 <= i < BITS => w[i] && x[i]) }

  function Xor(w: Word, x: Word): (r: Word)
  { seq(BITS, i requires 0 <= i < BITS => w[i] != x[i]) }

  function Not(w: Word): (r: Word)
  { seq(BITS, i requires 0 <= i < BITS => !w[i]) }

  function Zero(): (r: Word)
  { seq(BITS, i => false) }

  function One(): (r: Word)
  { seq(BITS, i => i == 0) }

  // ---------------------------------------------------------------------------------------------
  // Bit strings
  // ---------------------------------------------------------------------------------------------

  function WordOf(k: nat): (i: nat)
    ensures BITS * i <= k < BITS * i + BITS
  { k / BITS }

  function BitOf(k: nat): (j: nat)
    ensures j < BITS && k == BITS * WordOf(k) + j
  { k % BITS }

  function Bit(s: seq<Word>, k: nat): bool
    requires k < BITS * |s|
  { s[WordOf(k)][BitOf(k)] }

  function Bits(s: seq<Word>): (b: seq<bool>)
    ensures |b| == BITS * |s|
  { seq(BITS * |s|, k requires 0 <= k < BITS * |s| => Bit(s, k)) }

  /** The bits shifted up or down by n places, zeros coming in. */
  function ShiftedUp(b: seq<bool>, n: nat): (r: seq<bool>)
    ensures |r| == |b|
  { seq(|b|, k requires 0 <= k < |b| => k >= n && b[k - n]) }

  function ShiftedDown(b: seq<bool>, n: nat): (r: seq<bool>)
    ensures |r| == |b|
  { seq(|b|, k requires 0 <= k < |b| => k + n < |b| && b[k + n]) }

  /** The two phases of operator<<=: whole words, then bits across neighbouring words. */
  function WordUp(s: seq<Word>, n: nat, i: nat): Word
    requires i < |s|
  { if n <= i then s[i - n] else Zero() }

  function WordsUp(s: seq<Word>, n: nat): (r: seq<Word>)
    ensures |r| == |s|
  { seq(|s|, i requires 0 <= i < |s| => WordUp(s, n, i)) }

  function BitUp(s: seq<Word>, n: nat, i: nat): Word
    requires i < |s| && n < BITS
  { if i > 0 then Or(Shl(s[i], n), Shr(s[i - 1], BITS - n)) else Shl(s[i], n) }

  function BitsUp(s: seq<Word>, n: nat): (r: seq<Word>)
    requires n < BITS
    ensures |r| == |s|
  { seq(|s|, i requires 0 <= i < |s| => BitUp(s, n, i)) }

  /** And of operator>>=. */
  function WordDown(s: seq<Word>, n: nat, i: nat): Word
    requires i < |s|
  { if n < |s| - i then s[i + n] else Zero() }

  function WordsDown(s: seq<Word>, n: nat): (r: seq<Word>)
    ensures |r| == |s|
  { seq(|s|, i requires 0 <= i < |s| => WordDown(s, n, i)) }

  function BitDown(s: seq<Word>, n: nat, i: nat): Word
    requires i < |s| && n < BITS
  { if i + 1 < |s| then Or(Shr(s[i], n), Shl(s[i + 1], BITS - n)) else Shr(s[i], n) }

  function BitsDown(s: seq<Word>, n: nat): (r: seq<Word>)
    requires n < BITS
    ensures |r| == |s|
  { seq(|s|, i requires 0 <= i < |s| => BitDown(s, n, i)) }

  lemma Place(k: nat, i: nat, j: nat)
    requires k == BITS * i + j && j < BITS
    ensures WordOf(k) == i && BitOf(k) == j
  {
  }

  lemma BitAt(s: seq<Word>, k: nat, i: nat, j: nat)
    requires i < |s| && j < BITS && k == BITS * i + j
    ensures k < BITS * |s| && Bit(s, k) == s[i][j]
  {
    Place(k, i, j);
  }

  lemma WordUpAt(s: seq<Word>, n: nat, k: nat)
    requires k < BITS * |s|
    ensures Bit(WordsUp(s, n), k) == (k >= BITS * n && Bit(s, k - BITS * n))
  {
    var i, j := WordOf(k), BitOf(k);
    if n <= i { BitAt(s, k - BITS * n, i - n, j); }
  }

  lemma WordDownAt(s: seq<Word>, n: nat, k: nat)
    requires k < BITS * |s|
    ensures Bit(WordsDown(s, n), k) == (k + BITS * n < BITS * |s| && Bit(s, k + BITS * n))
  {
    var i, j := WordOf(k), BitOf(k);
    if i + n < |s| { BitAt(s, k + BITS * n, i + n, j); }
  }

  lemma BitUpAt(s: seq<Word>, n: nat, i: nat, j: nat)
    requires i < |s| && j < BITS && n < BITS
    ensures BitUp(s, n, i)[j] == if j >= n then s[i][j - n] else i > 0 && s[i - 1][j + BITS - n]
  {
  }

  lemma BitDownAt(s: seq<Word>, n: nat, i: nat, j: nat)
    requires i < |s| && j < BITS && n < BITS
    ensures BitDown(s, n, i)[j] == if j + n < BITS then s[i][j + n] else i + 1 < |s| && s[i + 1][j + n - BITS]
  {
  }

  lemma BitsUpAt(s: seq<Word>, n: nat, k: nat)
    requires k < BITS * |s| && n < BITS
    ensures Bit(BitsUp(s, n), k) == (k >= n && Bit(s, k - n))
  {
    var i, j := WordOf(k), BitOf(k);
    BitUpAt(s, n, i, j);
    if j >= n { BitAt(s, k - n, i, j - n); } else if i > 0 { BitAt(s, k - n, i - 1, j + BITS - n); }
  }

  lemma BitsDownAt(s: seq<Word>, n: nat, k: nat)
    requires k < BITS * |s| && n < BITS
    ensures Bit(BitsDown(s, n), k) == (k + n < BITS * |s| && Bit(s, k + n))
  {
    var i, j := WordOf(k), BitOf(k);
    BitDownAt(s, n, i, j);
    if j + n < BITS { BitAt(s, k + n, i, j + n); } else if i + 1 < |s| { BitAt(s, k + n, i + 1, j + n - BITS); }
  }

  lemma WordsUpIsShift(s: seq<Word>, n: nat)
    ensures Bits(WordsUp(s, n)) == ShiftedUp(Bits(s), BITS * n)
  {
    forall k | 0 <= k < BITS * |s| ensures Bit(WordsUp(s, n), k) == ShiftedUp(Bits(s), BITS * n)[k] { WordUpAt(s, n, k); }
  }

  lemma WordsDownIsShift(s: seq<Word>, n: nat)
    ensures Bits(WordsDown(s, n)) == ShiftedDown(Bits(s), BITS * n)
  {
    forall k | 0 <= k < BITS * |s| ensures Bit(WordsDown(s, n), k) == ShiftedDown(Bits(s), BITS * n)[k] { WordDownAt(s, n, k); }
  }

  lemma BitsUpIsShift(s: seq<Word>, n: nat)
    requires n < BITS
    ensures Bits(BitsUp(s, n)) == ShiftedUp(Bits(s), n)
  {
    forall k | 0 <= k < BITS * |s| ensures Bit(BitsUp(s, n), k) == ShiftedUp(Bits(s), n)[k] { BitsUpAt(s, n, k); }
  }

  lemma BitsDownIsShift(s: seq<Word>, n: nat)
    requires n < BITS
    ensures Bits(BitsDown(s, n)) == ShiftedDown(Bits(s), n)
  {
    forall k | 0 <= k < BITS * |s| ensures Bit(BitsDown(s, n), k) == ShiftedDown(Bits(s), n)[k] { BitsDownAt(s, n, k); }
  }

  lemma ShiftTwice(b: seq<bool>, m: nat, n: nat)
    ensures ShiftedUp(ShiftedUp(b, m), n) == ShiftedUp(b, m + n)
    ensures ShiftedDown(ShiftedDown(b, m), n) == ShiftedDown(b, m + n)
  {
  }

  /** Both phases together shift by any amount. */
  lemma ShiftUpInPhases(s: seq<Word>, n: nat)
    ensures Bits(BitsUp(WordsUp(s, WordOf(n)), BitOf(n))) == ShiftedUp(Bits(s), n)
  {
    WordsUpIsShift(s, WordOf(n));
    BitsUpIsShift(WordsUp(s, WordOf(n)), BitOf(n));
    ShiftTwice(Bits(s), BITS * WordOf(n), BitOf(n));
  }

  lemma ShiftDownInPhases(s: seq<Word>, n: nat)
    ensures Bits(BitsDown(WordsDown(s, WordOf(n)), BitOf(n))) == ShiftedDown(Bits(s), n)
  {
    WordsDownIsShift(s, WordOf(n));
    BitsDownIsShift(WordsDown(s, WordOf(n)), BitOf(n));
    ShiftTwice(Bits(s), BITS * WordOf(n), BitOf(n));
  }

  /** 1 << j, the mask of one bit */
  function Mask(j: nat): (r: Word)
    requires j < BITS
    ensures forall i :: 0 <= i < BITS ==> r[i] == (i == j)
  { Shl(One(), j) }

  function WithBit(w: Word, j: nat, value: bool): Word
    requires j < BITS
  { if value then Or(w, Mask(j)) else And(w, Not(Mask(j))) }

  lemma WithBitIsUpdate(w: Word, j: nat, value: bool)
    requires j < BITS
    ensures WithBit(w, j, value) == w[j := value]
  {
  }

  lemma UpdateBit(s: seq<Word>, k: nat, value: bool)
    requires k < BITS * |s|
    ensures var i, j := WordOf(k), BitOf(k);
      Bits(s[i := s[i][j := value]]) == Bits(s)[k := value]
  {
    var i, j := WordOf(k), BitOf(k);
    var t := s[i := s[i][j := value]];
    forall m | 0 <= m < BITS * |s| ensures Bits(t)[m] == Bits(s)[k := value][m] {
      if m != k && WordOf(m) == i { assert BitOf(m) != j; }
    }
  }
}
