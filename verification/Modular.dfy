/** Residues: the little arithmetic that circular buffers and word positions need.  All moduli are
    positive; % and / are the mathematical (floor) operations. */
module Modular {

  lemma MulZero(m: int, k: int)
    requires m > 0 && -m < m * k < m
    ensures k == 0
  {
    if k >= 1 { MulMono(m, 1, k); } else if k <= -1 { MulMono(m, k, -1); }
  }

  lemma MulMono(m: int, a: int, b: int)
    requires m > 0 && a <= b
    ensures m * a <= m * b
  {
  }

  /** The quotient and the remainder are determined by their defining equation. */
  lemma DivModUnique(x: int, m: int, k: int, r: int)
    requires m > 0 && x == m * k + r && 0 <= r < m
    ensures x / m == k && x % m == r
  {
    var q, s := x / m, x % m;
    assert x == m * q + s && 0 <= s < m;
    assert m * (q - k) == r - s by { Distribute(m, q, k); }
    MulZero(m, q - k);
  }

  lemma Distribute(m: int, a: int, b: int)
    ensures m * (a - b) == m * a - m * b
    ensures m * (a + b) == m * a + m * b
  {
  }

  /** x and y are congruent modulo m. */
  ghost predicate Cong(x: int, y: int, m: int)
    requires m > 0
  {
    (x - y) % m == 0
  }

  lemma CongFrom(x: int, y: int, m: int, k: int)
    requires m > 0 && x - y == m * k
    ensures Cong(x, y, m)
  {
    DivModUnique(x - y, m, k, 0);
  }

  lemma CongTo(x: int, y: int, m: int) returns (k: int)
    requires m > 0 && Cong(x, y, m)
    ensures x - y == m * k
  {
    k := (x - y) / m;
  }

  lemma CongTrans(x: int, y: int, z: int, m: int)
    requires m > 0 && Cong(x, y, m) && Cong(y, z, m)
    ensures Cong(x, z, m)
  {
    var a := CongTo(x, y, m);
    var b := CongTo(y, z, m);
    Distribute(m, a, b);
    CongFrom(x, z, m, a + b);
  }

  lemma CongSym(x: int, y: int, m: int)
    requires m > 0 && Cong(x, y, m)
    ensures Cong(y, x, m)
  {
    var a := CongTo(x, y, m);
    Distribute(m, 0, a);
    CongFrom(y, x, m, -a);
  }

  lemma CongAdd(x: int, y: int, d: int, m: int)
    requires m > 0 && Cong(x, y, m)
    ensures Cong(x + d, y + d, m)
  {
  }

  lemma CongMod(x: int, m: int)
    requires m > 0
    ensures Cong(x % m, x, m) && Cong(x, x % m, m)
  {
    CongFrom(x, x % m, m, x / m);
    CongSym(x, x % m, m);
  }

  /** Congruent residues are equal. */
  lemma CongEqual(x: int, y: int, m: int)
    requires m > 0 && Cong(x, y, m) && 0 <= x < m && 0 <= y < m
    ensures x == y
  {
    var k := CongTo(x, y, m);
    MulZero(m, k);
  }

  lemma CongSameMod(x: int, y: int, m: int)
    requires m > 0 && Cong(x, y, m)
    ensures x % m == y % m
  {
    CongMod(x, m);
    CongMod(y, m);
    CongTrans(x % m, x, y, m);
    CongTrans(x % m, y, y % m, m);
    CongEqual(x % m, y % m, m);
  }

  /** Congruence modulo a multiple implies congruence. */
  lemma CongDivisor(x: int, y: int, m: int, n: int)
    requires m > 0 && n > 0 && n % m == 0 && Cong(x, y, n)
    ensures Cong(x, y, m)
  {
    var a := CongTo(x, y, n);
    var b := n / m;
    assert n * a == (m * b) * a == m * (b * a);
    CongFrom(x, y, m, b * a);
  }

  lemma DividesDouble(m: int, n: int)
    requires m > 0 && n > 0 && n % m == 0
    ensures (2 * n) % m == 0
  {
    var b := n / m;
    assert n == m * b;
    assert 2 * n == m * (2 * b);
    DivModUnique(2 * n, m, 2 * b, 0);
  }
}
