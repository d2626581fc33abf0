/** Indices as the source stores them: unsigned words of w bits that wrap around, and their comparison. */
module IndexWords {
  import opened Modular

  function Pow2(n: nat): (p: int)
    ensures p > 0
  { if n == 0 then 1 else 2 * Pow2(n - 1) }

  /** The word that stores x: unsigned arithmetic is arithmetic modulo 2^w. */
  function Word(x: int, w: nat): (r: nat)
    ensures r < Pow2(w)
  { x % Pow2(w) }

  /** circular_less_than: static_cast<T>(a - b) > (1 << (w - 1)) */
  predicate CircularLess(a: nat, b: nat, w: nat)
    requires w > 0
  { Word(a - b, w) > Pow2(w - 1) }

  lemma WordOfDifference(x: int, y: int, w: nat)
    ensures Word(Word(x, w) - Word(y, w), w) == Word(x - y, w)
    ensures Word(Word(x, w) + y, w) == Word(x + y, w)
  {
    var m := Pow2(w);
    CongMod(x, m);
    CongMod(y, m);
    CongAdd(x % m, x, y, m);
    CongSameMod(x % m + y, x + y, m);
    CongAdd(x % m, x, -(y % m), m);
    CongSym(y % m, y, m);
    var k := CongTo(y, y % m, m);
    CongFrom(x - (y % m), x - y, m, k);
    CongTrans(x % m - y % m, x - y % m, x - y, m);
    CongSameMod(x % m - y % m, x - y, m);
  }

  lemma WordOfSmall(x: int, w: nat)
    requires -Pow2(w) < x < Pow2(w)
    ensures Word(x, w) == if x >= 0 then x else x + Pow2(w)
  {
    if x >= 0 { DivModUnique(x, Pow2(w), 0, x); } else { DivModUnique(x, Pow2(w), -1, x + Pow2(w)); }
  }

  /** Exactly when the wrapped comparison of two indices less than 2^w apart is the comparison. */
  lemma CircularLessIsLess(a: int, b: int, w: nat)
    requires w > 0 && -Pow2(w) < a - b < Pow2(w)
    ensures (CircularLess(Word(a, w), Word(b, w), w) <==> a < b) <==> -Pow2(w - 1) < a - b <= Pow2(w - 1)
  {
    WordOfDifference(a, b, w);
    WordOfSmall(a - b, w);
  }

  lemma {:induction false} PowMono(m: nat, n: nat)
    requires m <= n
    ensures Pow2(m) <= Pow2(n) && Pow2(n) % Pow2(m) == 0 && Pow2(n) / Pow2(m) == Pow2(n - m)
    ensures m == 6 ==> Pow2(m) == 64
    decreases n
  {
    assert Pow2(6) == 64 by { assert Pow2(3) == 8; }
    if m == n {
      DivModUnique(Pow2(n), Pow2(m), 1, 0);
    } else {
      PowMono(m, n - 1);
      var k := Pow2(n - 1) / Pow2(m);
      assert Pow2(n - 1) == Pow2(m) * k;
      assert Pow2(n) == Pow2(m) * (2 * k);
      DivModUnique(Pow2(n), Pow2(m), 2 * k, 0);
    }
  }
}
