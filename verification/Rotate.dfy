/** eastl::rotate on the range [first, last) of an array: the swapping loop that works for every kind of
    iterator, the "juggling" cycles for random access, and the moves by one position. */
module Rotate {
  import opened Modular

  /** The range rotated to the left by m. */
  function Rotated<T>(s: seq<T>, m: nat): seq<T>
    requires m <= |s|
  { s[m..] + s[..m] }

  /** Position i of the result holds what stood m places further on, cyclically; and what stood at i has
      gone to i + (|s| - m), cyclically. */
  lemma RotatedAt<T>(s: seq<T>, m: nat, i: nat)
    requires i < |s| && m <= |s|
    ensures |Rotated(s, m)| == |s| && Rotated(s, m)[i] == s[(i + m) % |s|]
    ensures Rotated(s, m)[(i + (|s| - m)) % |s|] == s[i]
  {
    var n := |s|;
    if i + m < n { DivModUnique(i + m, n, 0, i + m); } else { DivModUnique(i + m, n, 1, i + m - n); }
    if i < m { DivModUnique(i + (n - m), n, 0, i + (n - m)); } else { DivModUnique(i + (n - m), n, 1, i - m); }
  }

  lemma RotatedIs<T>(s: seq<T>, t: seq<T>, m: nat)
    requires |t| == |s| && m <= |s| && forall i :: 0 <= i < |s| ==> t[i] == s[(i + m) % |s|]
    ensures t == Rotated(s, m)
  {
    forall i | 0 <= i < |s| ensures t[i] == Rotated(s, m)[i] { RotatedAt(s, m, i); }
  }

  /** The whole array with the range rotated so that middle comes first. */
  function RotatedIn<T>(s: seq<T>, first: nat, middle: nat, last: nat): seq<T>
    requires first <= middle <= last <= |s|
  { s[..first] + Rotated(s[first..last], middle - first) + s[last..] }

  // ---------------------------------------------------------------------------------------------
  // Swapping
  // ---------------------------------------------------------------------------------------------

  /** Where the element for position k of the final array stands now: before f everything is in place; then
      come the elements from current on, then middle..current, which have already been moved up from the
      front, then f..middle. */
  function Source(f: nat, m: nat, c: nat, last: nat, k: nat): nat
    requires f <= m <= c <= last
  {
    if k < f || k >= last then k
    else if k - f < last - c then c + (k - f)
    else if k - f < last - m then m + (k - f - (last - c))
    else f + (k - f - (last - m))
  }

  ghost predicate ComesFrom<T>(s: seq<T>, target: seq<T>, i: nat, k: nat) { i < |s| && k < |target| && target[k] == s[i] }

  /** The array s will become target. */
  ghost predicate LeadsTo<T>(s: seq<T>, target: seq<T>, f: nat, m: nat, c: nat, last: nat) {
    && f <= m <= c <= last <= |s| == |target|
    && forall k :: 0 <= k < |s| ==> ComesFrom(s, target, Source(f, m, c, last, k), k)
  }

  lemma SwapStep<T>(s: seq<T>, s': seq<T>, target: seq<T>, f: nat, m: nat, c: nat, last: nat)
    requires LeadsTo(s, target, f, m, c, last) && f < m && c < last && s' == s[f := s[c]][c := s[f]]
    ensures LeadsTo(s', target, f + 1, m, c + 1, last)
    ensures f + 1 == m ==> LeadsTo(s', target, f + 1, c + 1, c + 1, last)
    ensures c + 1 == last ==> LeadsTo(s', target, f + 1, m, m, last)
  {
    var f', c' := f + 1, c + 1;
    forall k | 0 <= k < |s| ensures ComesFrom(s', target, Source(f', m, c', last, k), k) {
      assert ComesFrom(s, target, Source(f, m, c, last, k), k);
    }
    if f + 1 == m { SameSource(s', target, f + 1, m, c + 1, c + 1, c + 1, last); }
    if c + 1 == last { SameSource(s', target, f + 1, m, c + 1, m, m, last); }
  }

  /** Different places that describe the same order of the elements. */
  lemma SameSource<T>(s: seq<T>, target: seq<T>, f: nat, m: nat, c: nat, m': nat, c': nat, last: nat)
    requires LeadsTo(s, target, f, m, c, last) && f <= m' <= c' <= last
    requires (f == m && m' == c' == c) || (c == last && m' == c' == m)
    ensures LeadsTo(s, target, f, m', c', last)
  {
    forall k | 0 <= k < |s| ensures ComesFrom(s, target, Source(f, m', c', last, k), k) {
      assert ComesFrom(s, target, Source(f, m, c, last, k), k);
    }
  }

  lemma RotationStarts<T>(s: seq<T>, f: nat, m: nat, last: nat)
    requires f <= m <= last <= |s|
    ensures LeadsTo(s, RotatedIn(s, f, m, last), f, m, m, last)
  {
    var target := RotatedIn(s, f, m, last);
    forall k | 0 <= k < |s| ensures ComesFrom(s, target, Source(f, m, m, last, k), k) {}
  }

  lemma RotationEnds<T>(s: seq<T>, target: seq<T>, f: nat, last: nat)
    requires LeadsTo(s, target, f, last, last, last)
    ensures s == target
  {
    forall k | 0 <= k < |s| ensures s[k] == target[k] { assert ComesFrom(s, target, Source(f, last, last, last, k), k); }
  }

  method Swap<T>(a: array<T>, i: nat, j: nat)
    requires i < a.Length && j < a.Length
    modifies a
    ensures a[..] == old(a[..])[i := old(a[j])][j := old(a[i])]
  {
    a[i], a[j] := a[j], a[i];
  }

  method Move<T>(a: array<T>, to: nat, x: T)
    requires to < a.Length
    modifies a
    ensures a[..] == old(a[..])[to := x]
  {
    a[to] := x;
  }

  /** swap(*f, *current) */
  method SwapStepInPlace<T>(a: array<T>, f: nat, c: nat, ghost m: nat, ghost last: nat, ghost target: seq<T>)
    requires LeadsTo(a[..], target, f, m, c, last) && f < m && c < last
    modifies a
    ensures LeadsTo(a[..], target, f + 1, m, c + 1, last)
    ensures f + 1 == m ==> LeadsTo(a[..], target, f + 1, c + 1, c + 1, last)
    ensures c + 1 == last ==> LeadsTo(a[..], target, f + 1, m, m, last)
  {
    ghost var before := a[..];
    Swap(a, f, c);
    SwapStep(before, a[..], target, f, m, c, last);
  }

  /** The first loop: the whole part after middle moves to the front. */
  method BringForward<T>(a: array<T>, first: nat, middle: nat, last: nat, ghost target: seq<T>) returns (f: nat, m: nat)
    requires first < middle < last && LeadsTo(a[..], target, first, middle, middle, last)
    modifies a
    ensures f == first + (last - middle) && f <= m <= last && (f < m || m == last)
    ensures LeadsTo(a[..], target, f, m, m, last)
  {
    f, m := first, middle;
    var current := middle;
    while current != last
      invariant f <= m <= current <= last && f - first == current - middle && (f < m || current == m == last)
      invariant LeadsTo(a[..], target, f, m, if current == last then m else current, last)
      decreases last - current
    {
      SwapStepInPlace(a, f, current, m, last, target);
      f, current := f + 1, current + 1;
      if f == m { m := current; }
    }
  }

  /** The second loop puts the rest in order. */
  method FinishRotation<T>(a: array<T>, first: nat, middle: nat, last: nat, ghost target: seq<T>)
    requires LeadsTo(a[..], target, first, middle, middle, last) && (first < middle || middle == last)
    modifies a
    ensures a[..] == target
  {
    var f, m, current := first, middle, middle;
    while current != last
      invariant f <= m <= current <= last && (f < m || current == last) && (current == last ==> m == last)
      invariant LeadsTo(a[..], target, f, m, current, last)
      decreases last - f
    {
      SwapStepInPlace(a, f, current, m, last, target);
      f, current := f + 1, current + 1;
      if f == m {
        m := current;
      } else if current == last {
        current := m;
      }
    }
    RotationEnds(a[..], target, f, last);
  }

  /** rotate_general_impl */
  method RotateGeneral<T>(a: array<T>, first: nat, middle: nat, last: nat) returns (result: nat)
    requires first < middle < last <= a.Length
    modifies a
    ensures a[..] == RotatedIn(old(a[..]), first, middle, last)
    ensures result == first + (last - middle)
  {
    ghost var target := RotatedIn(a[..], first, middle, last);
    RotationStarts(a[..], first, middle, last);
    var m;
    result, m := BringForward(a, first, middle, last, target);
    FinishRotation(a, result, m, last, target);
  }

  // ---------------------------------------------------------------------------------------------
  // By one position
  // ---------------------------------------------------------------------------------------------

  /** The elements after first moved down by one, up to k; and those before last moved up by one, down
      to k. */
  function MovedDown<T>(s: seq<T>, first: nat, k: nat): seq<T>
    requires first <= k < |s|
  { s[..first] + s[first + 1..k + 1] + s[k..] }

  function MovedUp<T>(s: seq<T>, k: nat, last: nat): seq<T>
    requires 0 < k <= last <= |s|
  { s[..k] + s[k - 1..last - 1] + s[last..] }

  lemma MovedDownStep<T>(s: seq<T>, first: nat, k: nat)
    requires first <= k < |s|
    ensures MovedDown(s, first, first) == s
    ensures k + 1 < |s| ==> MovedDown(s, first, k)[k + 1] == s[k + 1] && MovedDown(s, first, k)[k := s[k + 1]] == MovedDown(s, first, k + 1)
    ensures MovedDown(s, first, k)[k := s[first]] == RotatedIn(s, first, first + 1, k + 1)
  {
    assert s[first..k + 1][1..] == s[first + 1..k + 1];
  }

  lemma MovedUpStep<T>(s: seq<T>, k: nat, last: nat)
    requires 0 < k <= last <= |s|
    ensures MovedUp(s, last, last) == s
    ensures k > 1 ==> MovedUp(s, k, last)[k - 2] == s[k - 2] && MovedUp(s, k, last)[k - 1 := s[k - 2]] == MovedUp(s, k - 1, last)
  {
    assert s[last - 1..last - 1] == [];
  }

  lemma MovedUpEnd<T>(s: seq<T>, k: nat, last: nat)
    requires 0 < k <= last <= |s|
    ensures MovedUp(s, k, last)[k - 1 := s[last - 1]] == RotatedIn(s, k - 1, last - 1, last)
  {
    assert s[k - 1..last][last - k..] == [s[last - 1]];
    assert s[k - 1..last][..last - k] == s[k - 1..last - 1];
    assert MovedUp(s, k, last)[k - 1 := s[last - 1]] == s[..k - 1] + ([s[last - 1]] + s[k - 1..last - 1]) + s[last..];
  }

  /** move_rotate_left_by_one */
  method MoveRotateLeftByOne<T>(a: array<T>, first: nat, last: nat) returns (result: nat)
    requires first < last <= a.Length
    modifies a
    ensures a[..] == RotatedIn(old(a[..]), first, first + 1, last) && result == last - 1
  {
    var temp := a[first];
    result := first;
    MovedDownStep(a[..], first, first);
    while result + 1 != last
      invariant first <= result < last && a[..] == MovedDown(old(a[..]), first, result)
    {
      MovedDownStep(old(a[..]), first, result);
      Move(a, result, a[result + 1]);
      result := result + 1;
    }
    MovedDownStep(old(a[..]), first, result);
    Move(a, result, temp);
  }

  /** move_rotate_right_by_one */
  method MoveRotateRightByOne<T>(a: array<T>, first: nat, last: nat) returns (result: nat)
    requires first < last <= a.Length
    modifies a
    ensures a[..] == RotatedIn(old(a[..]), first, last - 1, last) && result == first + 1
  {
    var temp := a[last - 1];
    result := last;
    MovedUpStep(a[..], last, last);
    while result - 1 != first
      invariant first < result <= last && a[..] == MovedUp(old(a[..]), result, last)
    {
      MovedUpStep(old(a[..]), result, last);
      Move(a, result - 1, a[result - 2]);
      result := result - 1;
    }
    MovedUpEnd(old(a[..]), result, last);
    Move(a, first, temp);
  }
}
