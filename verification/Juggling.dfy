/** The juggling rotation for random access: gcd(m1, m2) cycles, each moving its elements m1 places down. */
module Juggling {
  import opened Modular
  import opened Rotate

  predicate Divides(d: int, x: int)
    requires d > 0
  { x % d == 0 }

  /** g is the greatest common divisor of x and y, with Bezout's coefficients u and v. */
  ghost predicate IsGcd(g: int, x: int, y: int, u: int, v: int) {
    g > 0 && Divides(g, x) && Divides(g, y) && g == u * x + v * y
  }

  /** g divides both, and every common divisor divides g. */
  ghost predicate IsGreatest(g: int, x: int, y: int) {
    g > 0 && CommonDivisor(g, x, y) && forall d {:trigger CommonDivisor(d, x, y)} :: d > 0 && CommonDivisor(d, x, y) ==> Divides(d, g)
  }

  /** Every common divisor divides it. */
  lemma GcdIsGreatest(g: int, x: int, y: int, u: int, v: int, d: int)
    requires IsGcd(g, x, y, u, v) && d > 0 && Divides(d, x) && Divides(d, y)
    ensures Divides(d, g) && d <= g
  {
    var a, b := x / d, y / d;
    assert x == d * a && y == d * b;
    assert u * x == d * (u * a) && v * y == d * (v * b);
    Distribute(d, u * a, -(v * b));
    assert g == d * (u * a + v * b);
    DivModUnique(g, d, u * a + v * b, 0);
    if u * a + v * b <= 0 { MulMono(d, u * a + v * b, 0); } else { MulMono(d, 1, u * a + v * b); }
  }

  /** greatest_common_divisor */
  method GreatestCommonDivisor(x0: nat, y0: nat) returns (g: nat, ghost u: int, ghost v: int)
    requires y0 > 0
    ensures IsGreatest(g, x0, y0)
    ensures IsGcd(g, x0, y0, u, v)
  {
    var x, y := x0, y0;
    ghost var a, b, c, d := 1, 0, 0, 1;
    while y != 0
      invariant x >= 0 && y >= 0 && (x > 0 || y > 0)
      invariant x == a * x0 + b * y0 && y == c * x0 + d * y0
      invariant forall g {:trigger CommonDivisor(g, x, y)} :: g > 0 && CommonDivisor(g, x, y) ==> CommonDivisor(g, x0, y0)
      decreases y
    {
      var t := x % y;
      ghost var q := x / y;
      EuclidStep(x, y, a, b, c, d, x0, y0);
      x, y := y, t;
      a, b, c, d := c, d, a - q * c, b - q * d;
    }
    g, u, v := x, a, b;
    assert CommonDivisor(g, x, 0) by { DivModUnique(g, g, 1, 0); }
    forall d | d > 0 && CommonDivisor(d, x0, y0) ensures Divides(d, g) { GcdIsGreatest(g, x0, y0, u, v, d); }
  }

  predicate CommonDivisor(g: int, x: int, y: int)
    requires g > 0
  { Divides(g, x) && Divides(g, y) }

  lemma EuclidStep(x: nat, y: nat, a: int, b: int, c: int, d: int, x0: int, y0: int)
    requires y > 0 && x == a * x0 + b * y0 && y == c * x0 + d * y0
    ensures x % y == (a - (x / y) * c) * x0 + (b - (x / y) * d) * y0
    ensures forall g {:trigger CommonDivisor(g, y, x % y)} :: g > 0 && CommonDivisor(g, y, x % y) ==> CommonDivisor(g, x, y)
  {
    var q := x / y;
    assert x % y == x - q * y;
    assert q * y == q * (c * x0 + d * y0) == (q * c) * x0 + (q * d) * y0;
    forall g | g > 0 && CommonDivisor(g, y, x % y) ensures CommonDivisor(g, x, y) {
      var i, j := y / g, (x % y) / g;
      assert x == q * (g * i) + g * j == g * (q * i + j);
      DivModUnique(x, g, q * i + j, 0);
    }
  }

  // ---------------------------------------------------------------------------------------------
  // The cycles
  // ---------------------------------------------------------------------------------------------

  /** m1 and n == m1 + m2 with their greatest common divisor: the cycles have n / g positions. */
  datatype Shape = Shape(m: int, n: int, g: int, u: int, v: int)

  ghost predicate Ok(h: Shape) {
    0 < h.m < h.n && 0 < h.g && Divides(h.g, h.m) && Divides(h.g, h.n) && h.g == h.u * h.m + h.v * h.n && h.g <= h.m && h.g <= h.n - h.m
  }

  /** The i-th position of the cycle that starts at p. */
  function Pos(h: Shape, p: int, i: int): int
    requires h.n > 0
  { (p + i * h.m) % h.n }

  function Length(h: Shape): int
    requires h.g > 0
  { h.n / h.g }

  lemma NextPos(h: Shape, p: int, i: int)
    requires Ok(h)
    ensures Pos(h, p, i + 1) == (Pos(h, p, i) + h.m) % h.n
    ensures Pos(h, p, i + 1) == if h.m < h.n - Pos(h, p, i) then Pos(h, p, i) + h.m else h.m - (h.n - Pos(h, p, i))
  {
    var x := p + i * h.m;
    assert p + (i + 1) * h.m == x + h.m;
    CongMod(x, h.n);
    CongAdd(x % h.n, x, h.m, h.n);
    CongSameMod(x % h.n + h.m, x + h.m, h.n);
    var y := x % h.n;
    if h.m < h.n - y { DivModUnique(y + h.m, h.n, 0, y + h.m); } else { DivModUnique(y + h.m, h.n, 1, y + h.m - h.n); }
  }

  lemma MultipleOfN(g: int, m: int, n: int, u: int, v: int, k: int, c: int)
    requires g == u * m + v * n && k * m == n * c
    ensures k * g == n * (u * c + k * v)
  {
    assert k * g == k * (u * m) + k * (v * n);
    assert k * (u * m) == u * (k * m) == u * (n * c) == n * (u * c);
    assert k * (v * n) == n * (k * v);
    Distribute(n, u * c, k * v);
  }

  /** n divides k * m only if n / g divides k. */
  lemma NoEarlyReturn(h: Shape, k: int)
    requires Ok(h) && Divides(h.n, k * h.m) && 0 <= k < Length(h)
    ensures k == 0
  {
    var c := (k * h.m) / h.n;
    MultipleOfN(h.g, h.m, h.n, h.u, h.v, k, c);
    SmallMultiple(h.g, h.n, k, Length(h), h.u * c + k * h.v);
  }

  lemma SmallMultiple(g: int, n: int, k: int, l: int, c: int)
    requires g > 0 && n > 0 && n == g * l && 0 <= k < l && k * g == n * c
    ensures k == 0
  {
    MulMono(g, 0, k);
    MulMono(g, k, l - 1);
    assert g * (l - 1) == n - g;
    MulZero(n, c);
    MulZero(g, k);
  }

  /** The positions of one cycle are distinct. */
  lemma PosDistinct(h: Shape, p: int, i: int, j: int)
    requires Ok(h) && 0 <= i < j < Length(h)
    ensures Pos(h, p, i) != Pos(h, p, j)
  {
    if Pos(h, p, i) == Pos(h, p, j) {
      CongMod(p + i * h.m, h.n);
      CongMod(p + j * h.m, h.n);
      CongTrans(p + j * h.m, Pos(h, p, j), p + i * h.m, h.n);
      assert (p + j * h.m) - (p + i * h.m) == (j - i) * h.m;
      NoEarlyReturn(h, j - i);
    }
  }

  /** After n / g steps the cycle is back at its start. */
  lemma CycleCloses(h: Shape, p: int)
    requires Ok(h)
    ensures Pos(h, p, Length(h)) == Pos(h, p, 0) && Length(h) >= 2
  {
    var l, k := Length(h), h.m / h.g;
    assert h.n == h.g * l && h.m == h.g * k;
    assert l * h.m == l * (h.g * k) == (h.g * l) * k == h.n * k;
    CongFrom(p + l * h.m, p, h.n, k);
    CongSameMod(p + l * h.m, p, h.n);
    if l < 2 { MulMono(h.g, l, 1); }
  }

  /** The cycle from p stays among the positions congruent to p modulo g, and meets all of them. */
  lemma CycleStays(h: Shape, p: int, i: int)
    requires Ok(h)
    ensures Pos(h, p, i) % h.g == p % h.g
  {
    var k := h.m / h.g;
    assert i * h.m == i * (h.g * k) == h.g * (i * k);
    CongFrom(p + i * h.m, p, h.g, i * k);
    CongMod(p + i * h.m, h.n);
    CongDivisor(Pos(h, p, i), p + i * h.m, h.g, h.n);
    CongTrans(Pos(h, p, i), p + i * h.m, p, h.g);
    CongSameMod(Pos(h, p, i), p, h.g);
  }

  lemma StepsNeeded(g: int, m: int, n: int, u: int, v: int, t: int, l: int, k: int, c: int, i: int)
    requires n == g * l && m == g * k && g == u * m + v * n && t * u == l * c + i
    ensures g * t - i * m == n * (k * c + t * v)
  {
    assert g * t == t * (u * m) + t * (v * n);
    assert t * (u * m) == (t * u) * m == (l * c) * m + i * m;
    assert (l * c) * m == (l * m) * c;
    assert l * m == (g * l) * k == n * k;
    assert (n * k) * c == n * (k * c);
    assert t * (v * n) == n * (t * v);
    Distribute(n, k * c, -(t * v));
  }

  lemma CycleMeets(h: Shape, p: int, x: int) returns (i: int)
    requires Ok(h) && 0 <= x < h.n && x % h.g == p % h.g
    ensures 0 <= i < Length(h) && Pos(h, p, i) == x
  {
    var l := Length(h);
    CongMod(x, h.g);
    CongMod(p, h.g);
    CongTrans(x, x % h.g, p, h.g);
    var t := CongTo(x, p, h.g);
    CycleCloses(h, p);
    i := (t * h.u) % l;
    Reaches(h, p, x, t, i, (t * h.u) / l);
  }

  lemma Reaches(h: Shape, p: int, x: int, t: int, i: int, c: int)
    requires Ok(h) && 0 <= x < h.n && x - p == h.g * t && t * h.u == Length(h) * c + i
    ensures Pos(h, p, i) == x
  {
    var l, k := Length(h), h.m / h.g;
    StepsNeeded(h.g, h.m, h.n, h.u, h.v, t, l, k, c, i);
    var d := k * c + t * h.v;
    assert p + i * h.m == x - h.n * d;
    Distribute(h.n, 0, d);
    DivModUnique(p + i * h.m, h.n, -d, x);
  }

  // ---------------------------------------------------------------------------------------------
  // The rotation
  // ---------------------------------------------------------------------------------------------

  /** In the range from first on, position x holds what stood m places further on. */
  ghost predicate Moved<T>(h: Shape, s: seq<T>, s': seq<T>, first: nat, x: int)
    requires Ok(h) && 0 <= x < h.n && first + h.n <= |s| == |s'|
  { s'[first + x] == s[first + (x + h.m) % h.n] }

  ghost predicate Kept<T>(s: seq<T>, s': seq<T>, first: nat, x: int)
    requires 0 <= first + x < |s| == |s'|
  { s'[first + x] == s[first + x] }

  /** One cycle: temp = *p; then each element moves m1 down until the cycle closes. */
  ghost predicate CycleDone<T>(h: Shape, s: seq<T>, s': seq<T>, first: nat, p: int)
    requires Ok(h) && first + h.n <= |s| == |s'| && 0 <= p < h.g
  {
    && s'[..first] == s[..first] && s'[first + h.n..] == s[first + h.n..]
    && forall x :: 0 <= x < h.n ==> if x % h.g == p then Moved(h, s, s', first, x) else Kept(s, s', first, x)
  }

  ghost predicate Stepped<T>(h: Shape, s: seq<T>, s': seq<T>, first: nat, p: int, i: int)
    requires h.n > 0 && first + h.n <= |s| == |s'|
  { s'[first + Pos(h, p, i)] == s[first + Pos(h, p, i + 1)] }

  ghost predicate Waiting<T>(h: Shape, s: seq<T>, s': seq<T>, first: nat, p: int, i: int)
    requires h.n > 0 && first + h.n <= |s| == |s'|
  { s'[first + Pos(h, p, i)] == s[first + Pos(h, p, i)] }

  /** j elements of the cycle have moved. */
  ghost predicate Partly<T>(h: Shape, s: seq<T>, s': seq<T>, first: nat, p: int, j: int)
    requires Ok(h) && first + h.n <= |s| == |s'|
  {
    && s'[..first] == s[..first] && s'[first + h.n..] == s[first + h.n..]
    && (forall i :: 0 <= i < j ==> Stepped(h, s, s', first, p, i))
    && (forall i :: j <= i < Length(h) ==> Waiting(h, s, s', first, p, i))
    && (forall x :: 0 <= x < h.n && x % h.g != p ==> Kept(s, s', first, x))
  }

  lemma PartlyStep<T>(h: Shape, s: seq<T>, s': seq<T>, first: nat, p: int, j: int)
    requires Ok(h) && first + h.n <= |s| == |s'| && 0 <= p < h.g && 0 <= j && j + 1 < Length(h) && Partly(h, s, s', first, p, j)
    ensures Partly(h, s, s'[first + Pos(h, p, j) := s'[first + Pos(h, p, j + 1)]], first, p, j + 1)
  {
    var t := s'[first + Pos(h, p, j) := s'[first + Pos(h, p, j + 1)]];
    CycleStays(h, p, j);
    DivModUnique(p, h.g, 0, p);
    assert Waiting(h, s, s', first, p, j + 1);
    forall i | 0 <= i < j + 1 ensures Stepped(h, s, t, first, p, i) {
      if i < j {
        assert Stepped(h, s, s', first, p, i);
        PosDistinct(h, p, i, j);
      }
    }
    forall i | j + 1 <= i < Length(h) ensures Waiting(h, s, t, first, p, i) {
      assert Waiting(h, s, s', first, p, i);
      PosDistinct(h, p, j, i);
    }
    forall x | 0 <= x < h.n && x % h.g != p ensures Kept(s, t, first, x) { assert Kept(s, s', first, x); }
  }

  lemma PartlyDone<T>(h: Shape, s: seq<T>, s': seq<T>, first: nat, p: int)
    requires Ok(h) && first + h.n <= |s| == |s'| && 0 <= p < h.g && Partly(h, s, s', first, p, Length(h) - 1)
    ensures CycleDone(h, s, s'[first + Pos(h, p, Length(h) - 1) := s[first + Pos(h, p, 0)]], first, p)
  {
    var l := Length(h);
    var t := s'[first + Pos(h, p, l - 1) := s[first + Pos(h, p, 0)]];
    CycleCloses(h, p);
    CycleStays(h, p, l - 1);
    DivModUnique(p, h.g, 0, p);
    forall x | 0 <= x < h.n ensures if x % h.g == p then Moved(h, s, t, first, x) else Kept(s, t, first, x) {
      if x % h.g == p {
        var i := CycleMeets(h, p, x);
        NextPos(h, p, i);
        if i < l - 1 {
          assert Stepped(h, s, s', first, p, i);
          PosDistinct(h, p, i, l - 1);
        }
      } else {
        assert Kept(s, s', first, x);
      }
    }
  }

  /** The place m1 further on, cyclically, as the source computes it. */
  method Advance(first: nat, last: nat, m1: nat, p2: nat, ghost h: Shape, ghost p: nat, ghost j: nat) returns (q: nat)
    requires Ok(h) && h.m == m1 && h.n == last - first && p2 == first + Pos(h, p, j)
    ensures q == first + Pos(h, p, j + 1)
  {
    NextPos(h, p, j);
    var d := last - p2;
    if m1 < d { q := p2 + m1; } else { q := first + (m1 - d); }
  }

  lemma PosInRange(h: Shape, p: int, j: int)
    requires Ok(h)
    ensures 0 <= Pos(h, p, j) < h.n
  {
  }

  /** *p1 = *p2 */
  method MoveOne<T>(a: array<T>, first: nat, p: nat, p1: nat, p2: nat, ghost h: Shape, ghost s: seq<T>, ghost j: nat)
    requires Ok(h) && first + h.n <= a.Length == |s| && p < h.g && j + 1 < Length(h) && Partly(h, s, a[..], first, p, j)
    requires p1 == first + Pos(h, p, j) && p2 == first + Pos(h, p, j + 1)
    modifies a
    ensures Partly(h, s, a[..], first, p, j + 1)
  {
    PosInRange(h, p, j);
    PosInRange(h, p, j + 1);
    PartlyStep(h, s, a[..], first, p, j);
    Move(a, p1, a[p2]);
  }

  lemma CycleEnd(h: Shape, p: nat, j: nat)
    requires Ok(h) && p < h.g && 0 < j <= Length(h)
    ensures Pos(h, p, j) == p <==> j == Length(h)
    ensures Pos(h, p, 0) == p && Length(h) >= 2
  {
    CycleCloses(h, p);
    DivModUnique(p, h.n, 0, p);
    if j < Length(h) { PosDistinct(h, p, 0, j); }
  }

  /** The body of the outer loop. */
  method MoveCycle<T>(a: array<T>, first: nat, last: nat, p: nat, m1: nat, ghost h: Shape)
    requires first <= last <= a.Length && Ok(h) && h.m == m1 && h.n == last - first && p < h.g
    modifies a
    ensures CycleDone(h, old(a[..]), a[..], first, p)
  {
    CycleEnd(h, p, 1);
    var temp := a[first + p];
    var p1 := first + p;
    var p2 := Advance(first, last, m1, p1, h, p, 0);
    ghost var j := 0;
    var again := true;
    while again
      invariant 0 <= j < Length(h) && p1 == first + Pos(h, p, j) && p2 == first + Pos(h, p, j + 1)
      invariant Partly(h, old(a[..]), a[..], first, p, j)
      invariant again <==> j + 1 < Length(h)
      decreases Length(h) - j
    {
      MoveOne(a, first, p, p1, p2, h, old(a[..]), j);
      p1 := p2;
      p2 := Advance(first, last, m1, p2, h, p, j + 1);
      j := j + 1;
      again := p2 != first + p;
      CycleEnd(h, p, j + 1);
    }
    PosInRange(h, p, j);
    PartlyDone(h, old(a[..]), a[..], first, p);
    Move(a, p1, temp);
  }

  /** The cycles from p on have been moved, the others not yet. */
  ghost predicate From<T>(h: Shape, s: seq<T>, s': seq<T>, first: nat, p: int)
    requires Ok(h) && first + h.n <= |s| == |s'|
  {
    && s'[..first] == s[..first] && s'[first + h.n..] == s[first + h.n..]
    && forall x :: 0 <= x < h.n ==> if x % h.g >= p then Moved(h, s, s', first, x) else Kept(s, s', first, x)
  }

  lemma FromStep<T>(h: Shape, s: seq<T>, s': seq<T>, s'': seq<T>, first: nat, p: int)
    requires Ok(h) && first + h.n <= |s| == |s'| == |s''| && 0 <= p < h.g
    requires From(h, s, s', first, p + 1) && CycleDone(h, s', s'', first, p)
    ensures From(h, s, s'', first, p)
  {
    forall x | 0 <= x < h.n ensures if x % h.g >= p then Moved(h, s, s'', first, x) else Kept(s, s'', first, x) {
      if x % h.g == p {
        var y := (x + h.m) % h.n;
        assert Moved(h, s', s'', first, x);
        CycleStays(h, x, 1);
        assert Kept(s, s', first, y);
      } else {
        assert Kept(s', s'', first, x);
        assert x % h.g > p ==> Moved(h, s, s', first, x);
        assert x % h.g < p ==> Kept(s, s', first, x);
      }
    }
  }

  lemma FromStart<T>(h: Shape, s: seq<T>, first: nat)
    requires Ok(h) && first + h.n <= |s|
    ensures From(h, s, s, first, h.g)
  {
  }

  lemma FromEnd<T>(h: Shape, s: seq<T>, s': seq<T>, first: nat)
    requires Ok(h) && first + h.n <= |s| == |s'| && From(h, s, s', first, 0)
    ensures s' == RotatedIn(s, first, first + h.m, first + h.n)
  {
    var r, t := s[first..first + h.n], s'[first..first + h.n];
    forall x | 0 <= x < h.n ensures t[x] == r[(x + h.m) % h.n] { assert Moved(h, s, s', first, x); }
    RotatedIs(r, t, h.m);
    assert s' == s'[..first] + t + s'[first + h.n..];
  }

  lemma ShapeOk(g: int, m1: nat, m2: nat, u: int, v: int)
    requires m1 > 0 && m2 > 0 && IsGcd(g, m1, m2, u, v)
    ensures Ok(Shape(m1, m1 + m2, g, u - v, v))
  {
    var a, b := m1 / g, m2 / g;
    assert m1 == g * a && m2 == g * b;
    Distribute(g, a, -b);
    DivModUnique(m1 + m2, g, a + b, 0);
    if g > m1 { DivModUnique(m1, g, 0, m1); }
    if g > m2 { DivModUnique(m2, g, 0, m2); }
    assert (u - v) * m1 + v * (m1 + m2) == u * m1 + v * m2;
  }

  /** rotate_impl for random access: the outer loop starts a cycle at each of the first g positions. */
  method RotateJuggling<T>(a: array<T>, first: nat, middle: nat, last: nat) returns (result: nat)
    requires first < middle < last <= a.Length
    modifies a
    ensures a[..] == RotatedIn(old(a[..]), first, middle, last)
    ensures result == first + (last - middle)
  {
    var m1, m2 := middle - first, last - middle;
    var g, u, v := GreatestCommonDivisor(m1, m2);
    ghost var h := Shape(m1, m1 + m2, g, u - v, v);
    ShapeOk(g, m1, m2, u, v);
    FromStart(h, a[..], first);
    var p := first + g;
    while p != first
      invariant first <= p <= first + g && From(h, old(a[..]), a[..], first, p - first)
    {
      p := p - 1;
      ghost var before := a[..];
      MoveCycle(a, first, last, p - first, m1, h);
      FromStep(h, old(a[..]), before, a[..], first, p - first);
    }
    FromEnd(h, old(a[..]), a[..], first);
    result := first + m2;
  }

  // ---------------------------------------------------------------------------------------------
  // rotate
  // ---------------------------------------------------------------------------------------------

  datatype Category = Forward | Bidirectional | RandomAccess

  /** rotate: whatever kind of iterator and element, the same contents and the same position. */
  method RotateRange<T>(a: array<T>, first: nat, middle: nat, last: nat, category: Category, trivial: bool) returns (result: nat)
    requires first <= middle <= last <= a.Length
    modifies a
    ensures a[..] == RotatedIn(old(a[..]), first, middle, last)
    ensures result == first + (last - middle)
  {
    NothingToRotate(a[..], first, middle, last);
    if middle == first {
      result := last;
    } else if middle == last {
      result := first;
    } else if trivial && first + 1 == middle {
      result := MoveRotateLeftByOne(a, first, last);
    } else if trivial && !category.Forward? && middle + 1 == last {
      result := MoveRotateRightByOne(a, first, last);
    } else if !category.RandomAccess? || (trivial && last - first < 32) {
      result := RotateGeneral(a, first, middle, last);
    } else {
      result := RotateJuggling(a, first, middle, last);
    }
  }

  lemma NothingToRotate<T>(s: seq<T>, first: nat, middle: nat, last: nat)
    requires first <= middle <= last <= |s|
    ensures middle == first || middle == last ==> RotatedIn(s, first, middle, last) == s
  {
    assert s == s[..first] + s[first..last] + s[last..];
  }
}
