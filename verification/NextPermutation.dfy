/** eastl::next_permutation, in place on the range [first, last) of an array, for any comparison that is a
    strict weak order.  The combinatorics is done on keys, the ranks of the elements in the range. */
module NextPermutation {

  /** Lexicographic order of sequences of the same length. */
  predicate Less(s: seq<int>, t: seq<int>)
    requires |s| == |t|
  { s != [] && (s[0] < t[0] || (s[0] == t[0] && Less(s[1..], t[1..]))) }

  predicate Descending(s: seq<int>) { forall i, j :: 0 <= i < j < |s| ==> s[i] >= s[j] }

  predicate Sorted(s: seq<int>) { forall i, j :: 0 <= i < j < |s| ==> s[i] <= s[j] }

  predicate Arrangement<T(==)>(s: seq<T>, t: seq<T>) { |s| == |t| && multiset(s) == multiset(t) }

  /** t is the least arrangement above s. */
  ghost predicate IsNext(s: seq<int>, t: seq<int>) {
    && Arrangement(s, t) && Less(s, t)
    && forall u :: Arrangement(s, u) && Less(s, u) ==> u == t || Less(t, u)
  }

  // ---------------------------------------------------------------------------------------------
  // Arrangements
  // ---------------------------------------------------------------------------------------------

  lemma Split<T>(s: seq<T>)
    requires s != []
    ensures multiset(s) == multiset{s[0]} + multiset(s[1..])
  {
    assert s == [s[0]] + s[1..];
  }

  lemma HeadIsElement<T>(s: seq<T>, u: seq<T>) returns (k: nat)
    requires Arrangement(s, u) && s != []
    ensures k < |s| && s[k] == u[0]
  {
    assert u[0] in multiset(u);
    assert u[0] in multiset(s);
    k :| 0 <= k < |s| && s[k] == u[0];
  }

  lemma Tails(s: seq<int>, u: seq<int>)
    requires Arrangement(s, u) && s != [] && s[0] == u[0]
    ensures Arrangement(s[1..], u[1..])
  {
    Split(s);
    Split(u);
    assert multiset(s[1..]) == multiset(s) - multiset{s[0]};
    assert multiset(u[1..]) == multiset(u) - multiset{u[0]};
  }

  /** The sorted arrangement comes before every other. */
  lemma {:induction false} SortedIsLeast(t: seq<int>, u: seq<int>)
    requires Sorted(t) && Arrangement(t, u)
    ensures u == t || Less(t, u)
  {
    if t != [] {
      var k := HeadIsElement(t, u);
      if t[0] == u[0] {
        Tails(t, u);
        SortedIsLeast(t[1..], u[1..]);
        assert t == [t[0]] + t[1..] && u == [u[0]] + u[1..];
      }
    }
  }

  /** The descending arrangement comes after every other. */
  lemma {:induction false} DescendingIsGreatest(s: seq<int>, u: seq<int>)
    requires Descending(s) && Arrangement(s, u)
    ensures !Less(s, u)
  {
    if s != [] {
      var k := HeadIsElement(s, u);
      if s[0] == u[0] {
        Tails(s, u);
        DescendingIsGreatest(s[1..], u[1..]);
      }
    }
  }

  // ---------------------------------------------------------------------------------------------
  // The next arrangement
  // ---------------------------------------------------------------------------------------------

  function Reversed<T>(s: seq<T>): seq<T> { if s == [] then [] else Reversed(s[1..]) + [s[0]] }

  function Swapped<T>(s: seq<T>, i: nat, j: nat): seq<T>
    requires i < |s| && j < |s|
  { s[i := s[j]][j := s[i]] }

  /** The rearrangement of next_permutation when the first element is the pivot and j its successor. */
  function Advanced<T>(s: seq<T>, j: nat): seq<T>
    requires 0 < j < |s|
  { [s[j]] + Reversed(Swapped(s, 0, j)[1..]) }

  lemma {:induction false} ReversedAt<T>(s: seq<T>, k: nat)
    requires k < |s|
    ensures |Reversed(s)| == |s| && Reversed(s)[k] == s[|s| - 1 - k]
  {
    if |s| > 1 { ReversedAt(s[1..], if k < |s| - 1 then k else 0); }
  }

  lemma {:induction false} ReversedArrangement<T>(s: seq<T>)
    ensures Arrangement(s, Reversed(s))
  {
    if s != [] {
      ReversedArrangement(s[1..]);
      Split(s);
    }
  }

  lemma ReversedSorted(s: seq<int>)
    requires Descending(s)
    ensures Sorted(Reversed(s))
  {
    ReversedArrangement(s);
    forall i, j | 0 <= i < j < |s| ensures Reversed(s)[i] <= Reversed(s)[j] {
      ReversedAt(s, i);
      ReversedAt(s, j);
    }
  }

  lemma SwappedArrangement<T>(s: seq<T>, i: nat, j: nat)
    requires i < |s| && j < |s|
    ensures Arrangement(s, Swapped(s, i, j))
  {
  }

  /** s[0] is the pivot: the rest is descending, and j is the last place with a greater element. */
  predicate PivotAtFront(s: seq<int>, j: nat) {
    0 < j < |s| && Descending(s[1..]) && s[0] < s[j] && forall k :: j < k < |s| ==> s[k] <= s[0]
  }

  lemma SwapKeepsDescending(s: seq<int>, j: nat)
    requires PivotAtFront(s, j)
    ensures Descending(Swapped(s, 0, j)[1..])
  {
    var t := Swapped(s, 0, j)[1..];
    forall a, b | 0 <= a < b < |t| ensures t[a] >= t[b] {
      assert s[1..][a] >= s[1..][b];
      assert s[1..][a] == s[a + 1] && s[1..][b] == s[b + 1];
      if a + 1 < j == b + 1 { assert s[1..][a] >= s[1..][j - 1]; }
    }
  }

  lemma AdvancedIsNext(s: seq<int>, j: nat)
    requires PivotAtFront(s, j)
    ensures IsNext(s, Advanced(s, j))
  {
    var w := Swapped(s, 0, j);
    var t := Advanced(s, j);
    SwappedArrangement(s, 0, j);
    SwapKeepsDescending(s, j);
    ReversedArrangement(w[1..]);
    ReversedSorted(w[1..]);
    Split(w);
    Split(t);
    assert t[1..] == Reversed(w[1..]);
    forall u | Arrangement(s, u) && Less(s, u) ensures u == t || Less(t, u) { AdvancedIsLeast(s, j, t, u); }
  }

  lemma AdvancedIsLeast(s: seq<int>, j: nat, t: seq<int>, u: seq<int>)
    requires PivotAtFront(s, j) && Arrangement(s, t) && t[0] == s[j] && Sorted(t[1..])
    requires Arrangement(s, u) && Less(s, u)
    ensures u == t || Less(t, u)
  {
    var k := HeadIsElement(s, u);
    if s[0] == u[0] {
      Tails(s, u);
      DescendingIsGreatest(s[1..], u[1..]);
    }
    if k < j && k > 0 { assert s[1..][k - 1] >= s[1..][j - 1]; }
    if u[0] == t[0] {
      Tails(t, u);
      SortedIsLeast(t[1..], u[1..]);
      assert t == [t[0]] + t[1..] && u == [u[0]] + u[1..];
    }
  }

  /** A common first element does not matter. */
  lemma NextAfterHead(x: int, s: seq<int>, t: seq<int>)
    requires IsNext(s, t)
    ensures IsNext([x] + s, [x] + t)
  {
    assert ([x] + s)[1..] == s && ([x] + t)[1..] == t;
    Split([x] + s);
    Split([x] + t);
    forall u | Arrangement([x] + s, u) && Less([x] + s, u) ensures u == [x] + t || Less([x] + t, u) {
      if u[0] == x {
        Tails([x] + s, u);
        assert u == [x] + u[1..];
      }
    }
  }

  lemma {:induction false} NextAfterPrefix(p: seq<int>, s: seq<int>, t: seq<int>)
    requires IsNext(s, t)
    ensures IsNext(p + s, p + t)
  {
    if p == [] {
      assert p + s == s && p + t == t;
    } else {
      NextAfterPrefix(p[1..], s, t);
      NextAfterHead(p[0], p[1..] + s, p[1..] + t);
      assert p + s == [p[0]] + (p[1..] + s) && p + t == [p[0]] + (p[1..] + t);
    }
  }

  // ---------------------------------------------------------------------------------------------
  // Any comparison
  // ---------------------------------------------------------------------------------------------

  ghost predicate StrictWeakOrder<T(!new)>(less: (T, T) -> bool) {
    && (forall x :: !less(x, x))
    && (forall x, y, z :: less(x, y) && less(y, z) ==> less(x, z))
    && (forall x, y, z :: less(x, z) ==> less(x, y) || less(y, z))
  }

  /** Lexicographic order by a comparison, and sequences that it does not tell apart. */
  predicate LessBy<T>(less: (T, T) -> bool, s: seq<T>, t: seq<T>)
    requires |s| == |t|
  { s != [] && (less(s[0], t[0]) || (!less(t[0], s[0]) && LessBy(less, s[1..], t[1..]))) }

  predicate Same<T>(less: (T, T) -> bool, s: seq<T>, t: seq<T>)
    requires |s| == |t|
  { forall i :: 0 <= i < |s| ==> !less(s[i], t[i]) && !less(t[i], s[i]) }

  predicate DescendingBy<T>(less: (T, T) -> bool, s: seq<T>) { forall i, j :: 0 <= i < j < |s| ==> !less(s[i], s[j]) }

  predicate SortedBy<T>(less: (T, T) -> bool, s: seq<T>) { forall i, j :: 0 <= i < j < |s| ==> !less(s[j], s[i]) }

  /** t is the least arrangement above s, as far as the comparison tells. */
  ghost predicate IsNextBy<T(!new)>(less: (T, T) -> bool, s: seq<T>, t: seq<T>) {
    && Arrangement(s, t) && LessBy(less, s, t)
    && forall u :: Arrangement(s, u) && LessBy(less, s, u) ==> Same(less, t, u) || LessBy(less, t, u)
  }

  ghost predicate IsLastBy<T(!new)>(less: (T, T) -> bool, s: seq<T>) { forall u :: Arrangement(s, u) ==> !LessBy(less, s, u) }

  /** The number of elements of base that are less than x. */
  function Rank<T>(less: (T, T) -> bool, base: seq<T>, x: T): nat {
    if base == [] then 0 else (if less(base[0], x) then 1 else 0) + Rank(less, base[1..], x)
  }

  lemma {:induction false} RankMono<T(!new)>(less: (T, T) -> bool, base: seq<T>, x: T, y: T)
    requires StrictWeakOrder(less) && !less(y, x)
    ensures Rank(less, base, x) <= Rank(less, base, y)
    ensures less(x, y) && x in base ==> Rank(less, base, x) < Rank(less, base, y)
    decreases |base|
  {
    if base != [] {
      RankMono(less, base[1..], x, y);
      assert less(base[0], x) ==> less(base[0], y) || less(y, x);
    }
  }

  function Keys<T>(less: (T, T) -> bool, base: seq<T>, s: seq<T>): (r: seq<int>)
    ensures |r| == |s|
  { seq(|s|, i requires 0 <= i < |s| => Rank(less, base, s[i])) }

  predicate Within<T(==)>(base: seq<T>, s: seq<T>) { forall i :: 0 <= i < |s| ==> s[i] in base }

  lemma {:induction false} KeysLess<T(!new)>(less: (T, T) -> bool, base: seq<T>, s: seq<T>, t: seq<T>)
    requires StrictWeakOrder(less) && |s| == |t| && Within(base, s) && Within(base, t)
    ensures LessBy(less, s, t) <==> Less(Keys(less, base, s), Keys(less, base, t))
    ensures Same(less, s, t) <==> Keys(less, base, s) == Keys(less, base, t)
    decreases |s|
  {
    forall i | 0 <= i < |s| ensures less(s[i], t[i]) <==> Keys(less, base, s)[i] < Keys(less, base, t)[i] { RankTells(less, base, s[i], t[i]); }
    forall i | 0 <= i < |s| ensures less(t[i], s[i]) <==> Keys(less, base, t)[i] < Keys(less, base, s)[i] { RankTells(less, base, t[i], s[i]); }
    if s != [] {
      KeysLess(less, base, s[1..], t[1..]);
      KeysTail(less, base, s);
      KeysTail(less, base, t);
    }
  }

  lemma KeysTail<T>(less: (T, T) -> bool, base: seq<T>, s: seq<T>)
    requires s != []
    ensures Keys(less, base, s)[1..] == Keys(less, base, s[1..])
  {
  }

  lemma RankTells<T(!new)>(less: (T, T) -> bool, base: seq<T>, x: T, y: T)
    requires StrictWeakOrder(less) && x in base
    ensures less(x, y) <==> Rank(less, base, x) < Rank(less, base, y)
  {
    if less(x, y) {
      assert !less(y, x);
      RankMono(less, base, x, y);
    } else {
      RankMono(less, base, y, x);
    }
  }

  function Without<T>(s: seq<T>, k: nat): seq<T>
    requires k < |s|
  { s[..k] + s[k + 1..] }

  lemma SplitAt<T>(s: seq<T>, k: nat)
    requires k < |s|
    ensures multiset(s) == multiset{s[k]} + multiset(Without(s, k))
  {
    assert s == s[..k] + [s[k]] + s[k + 1..];
  }

  lemma {:induction false} KeysArrangement<T>(less: (T, T) -> bool, base: seq<T>, s: seq<T>, u: seq<T>)
    requires Arrangement(s, u)
    ensures Arrangement(Keys(less, base, s), Keys(less, base, u))
    decreases |s|
  {
    if s != [] {
      var k := HeadIsElement(s, u);
      var ks, ku := Keys(less, base, s), Keys(less, base, u);
      SplitAt(s, k);
      Split(u);
      assert multiset(Without(s, k)) == multiset(s) - multiset{s[k]} && multiset(u[1..]) == multiset(u) - multiset{u[0]};
      KeysArrangement(less, base, Without(s, k), u[1..]);
      SplitAt(ks, k);
      Split(ku);
      assert Keys(less, base, Without(s, k)) == Without(ks, k);
      KeysTail(less, base, u);
    }
  }

  lemma ArrangedWithin<T>(s: seq<T>, u: seq<T>)
    requires Arrangement(s, u)
    ensures Within(s, u)
  {
    forall i | 0 <= i < |u| ensures u[i] in s { assert u[i] in multiset(u); }
  }

  lemma NextByKeys<T(!new)>(less: (T, T) -> bool, s: seq<T>, t: seq<T>)
    requires StrictWeakOrder(less) && Arrangement(s, t) && IsNext(Keys(less, s, s), Keys(less, s, t))
    ensures IsNextBy(less, s, t)
  {
    ArrangedWithin(s, t);
    KeysLess(less, s, s, t);
    forall u | Arrangement(s, u) && LessBy(less, s, u) ensures Same(less, t, u) || LessBy(less, t, u) {
      ArrangedWithin(s, u);
      KeysArrangement(less, s, s, u);
      KeysLess(less, s, s, u);
      KeysLess(less, s, t, u);
    }
  }

  lemma KeysDescending<T(!new)>(less: (T, T) -> bool, base: seq<T>, s: seq<T>)
    requires StrictWeakOrder(less) && Within(base, s)
    ensures DescendingBy(less, s) <==> Descending(Keys(less, base, s))
    ensures SortedBy(less, s) <==> Sorted(Keys(less, base, s))
  {
    forall i, j | 0 <= i < |s| && 0 <= j < |s| ensures less(s[i], s[j]) <==> Keys(less, base, s)[i] < Keys(less, base, s)[j] {
      RankTells(less, base, s[i], s[j]);
    }
  }

  lemma DescendingIsLast<T(!new)>(less: (T, T) -> bool, s: seq<T>)
    requires StrictWeakOrder(less) && DescendingBy(less, s)
    ensures IsLastBy(less, s)
  {
    KeysDescending(less, s, s);
    forall u | Arrangement(s, u) ensures !LessBy(less, s, u) {
      ArrangedWithin(s, u);
      KeysArrangement(less, s, s, u);
      DescendingIsGreatest(Keys(less, s, s), Keys(less, s, u));
      KeysLess(less, s, s, u);
    }
  }

  lemma SortedIsFirst<T(!new)>(less: (T, T) -> bool, t: seq<T>, u: seq<T>)
    requires StrictWeakOrder(less) && SortedBy(less, t) && Arrangement(t, u)
    ensures Same(less, t, u) || LessBy(less, t, u)
  {
    KeysDescending(less, t, t);
    ArrangedWithin(t, u);
    KeysArrangement(less, t, t, u);
    SortedIsLeast(Keys(less, t, t), Keys(less, t, u));
    KeysLess(less, t, t, u);
  }

  // ---------------------------------------------------------------------------------------------
  // Enumeration
  // ---------------------------------------------------------------------------------------------

  lemma {:induction false} LessTransitive<T(!new)>(less: (T, T) -> bool, s: seq<T>, t: seq<T>, u: seq<T>)
    requires StrictWeakOrder(less) && |s| == |t| == |u| && LessBy(less, s, t) && LessBy(less, t, u)
    ensures LessBy(less, s, u)
    decreases |s|
  {
    if !less(s[0], t[0]) && !less(t[0], u[0]) { LessTransitive(less, s[1..], t[1..], u[1..]); }
  }

  lemma {:induction false} LessIsNotSame<T(!new)>(less: (T, T) -> bool, s: seq<T>, t: seq<T>)
    requires |s| == |t| && LessBy(less, s, t)
    ensures !Same(less, s, t)
    decreases |s|
  {
    if !less(s[0], t[0]) { LessIsNotSame(less, s[1..], t[1..]); }
  }

  ghost predicate Follows<T(!new)>(less: (T, T) -> bool, p: seq<seq<T>>, k: nat)
    requires 0 < k < |p|
  { IsNextBy(less, p[k - 1], p[k]) }

  /** Calling next_permutation again and again, from the sorted arrangement until it returns false. */
  ghost predicate FullRun<T(!new)>(less: (T, T) -> bool, p: seq<seq<T>>) {
    |p| > 0 && SortedBy(less, p[0]) && (forall k :: 0 < k < |p| ==> Follows(less, p, k)) && IsLastBy(less, p[|p| - 1])
  }

  lemma {:induction false} RunAscends<T(!new)>(less: (T, T) -> bool, p: seq<seq<T>>, i: nat, j: nat)
    requires StrictWeakOrder(less) && FullRun(less, p) && i <= j < |p|
    ensures Arrangement(p[i], p[j]) && (i < j ==> LessBy(less, p[i], p[j]))
    decreases j
  {
    if i < j {
      RunAscends(less, p, i, j - 1);
      assert Follows(less, p, j);
      if i < j - 1 { LessTransitive(less, p[i], p[j - 1], p[j]); }
    }
  }

  lemma OneFurther<T(!new)>(less: (T, T) -> bool, p: seq<seq<T>>, k: nat, u: seq<T>)
    requires FullRun(less, p) && k < |p| && Arrangement(p[k], u) && LessBy(less, p[k], u)
    ensures k + 1 < |p| && Arrangement(p[k + 1], u) && (Same(less, p[k + 1], u) || LessBy(less, p[k + 1], u))
  {
    assert k + 1 < |p| ==> Follows(less, p, k + 1);
  }

  lemma SameTwice<T(!new)>(less: (T, T) -> bool, s: seq<T>, t: seq<T>, u: seq<T>)
    requires StrictWeakOrder(less) && |s| == |t| == |u| && Same(less, s, u) && Same(less, t, u)
    ensures Same(less, s, t)
  {
  }

  lemma OnlyOnce<T(!new)>(less: (T, T) -> bool, p: seq<seq<T>>, u: seq<T>, i: nat, k: nat)
    requires StrictWeakOrder(less) && FullRun(less, p) && i < k < |p| && |p[i]| == |p[k]| == |u| && Same(less, p[i], u)
    ensures !Same(less, p[k], u)
  {
    RunAscends(less, p, i, k);
    LessIsNotSame(less, p[i], p[k]);
    if Same(less, p[k], u) { SameTwice(less, p[i], p[k], u); }
  }

  /** Such a run meets every arrangement, up to elements that the comparison does not tell apart, and each
      only once. */
  lemma MeetsEveryArrangement<T(!new)>(less: (T, T) -> bool, p: seq<seq<T>>, u: seq<T>) returns (k: nat)
    requires StrictWeakOrder(less) && FullRun(less, p) && Arrangement(p[0], u)
    ensures k < |p| && |p[k]| == |u| && Same(less, p[k], u)
    ensures forall i :: 0 <= i < |p| && |p[i]| == |u| && Same(less, p[i], u) ==> i == k
  {
    SortedIsFirst(less, p[0], u);
    k := 0;
    while !Same(less, p[k], u)
      invariant k < |p| && Arrangement(p[k], u) && (Same(less, p[k], u) || LessBy(less, p[k], u))
      decreases |p| - k
    {
      OneFurther(less, p, k, u);
      k := k + 1;
    }
    forall i | 0 <= i < |p| && |p[i]| == |u| && Same(less, p[i], u) ensures i == k {
      if i < k { OnlyOnce(less, p, u, i, k); } else if k < i { OnlyOnce(less, p, u, k, i); }
    }
  }

  // ---------------------------------------------------------------------------------------------
  // In place
  // ---------------------------------------------------------------------------------------------

  /** s with the outer elements of first..last exchanged, down to f..l. */
  ghost predicate HalfReversed<T>(s: seq<T>, t: seq<T>, first: nat, last: nat, f: nat, l: nat)
    requires first <= f && l <= last <= |s| == |t|
  {
    && (forall k :: 0 <= k < |s| && (k < first || f <= k < l || last <= k) ==> t[k] == s[k])
    && (forall k :: first <= k < last && (k < f || l <= k) ==> t[k] == s[first + last - 1 - k])
  }

  lemma ReversedInPlace<T>(s: seq<T>, t: seq<T>, first: nat, last: nat, f: nat, l: nat)
    requires first <= f && l <= last <= |s| == |t| && f + l == first + last && l <= f + 1 && first <= last
    requires HalfReversed(s, t, first, last, f, l)
    ensures t == s[..first] + Reversed(s[first..last]) + s[last..]
  {
    var r := s[first..last];
    ReversedArrangement(r);
    forall k | 0 <= k < |r| ensures t[first + k] == Reversed(r)[k] { ReversedAt(r, k); }
  }

  /** reverse_impl for bidirectional iterators: for(; (first != last) && (first != --last); ++first) */
  method ReverseBidirectional<T>(a: array<T>, first: nat, last: nat)
    requires first <= last <= a.Length
    modifies a
    ensures a[..] == old(a[..first] + Reversed(a[first..last]) + a[last..])
  {
    var f, l := first, last;
    while f != l
      invariant first <= f <= l <= last && f + l == first + last
      invariant HalfReversed(old(a[..]), a[..], first, last, f, l)
      decreases l - f
    {
      l := l - 1;
      if f == l { l := l + 1; break; }
      a[f], a[l] := a[l], a[f];
      f := f + 1;
    }
    ReversedInPlace(old(a[..]), a[..], first, last, f, l);
  }

  /** reverse_impl for random access iterators */
  method ReverseRandomAccess<T>(a: array<T>, first: nat, last: nat)
    requires first <= last <= a.Length
    modifies a
    ensures a[..] == old(a[..first] + Reversed(a[first..last]) + a[last..])
  {
    var f, l := first, last;
    if f != l {
      l := l - 1;
      while f < l
        invariant first <= f <= l + 1 <= last && f + l + 1 == first + last
        invariant HalfReversed(old(a[..]), a[..], first, last, f, l + 1)
      {
        a[f], a[l] := a[l], a[f];
        f, l := f + 1, l - 1;
      }
      l := l + 1;
    }
    ReversedInPlace(old(a[..]), a[..], first, last, f, l);
  }

  /** reverse: chosen by the iterator category. */
  method Reverse<T>(a: array<T>, first: nat, last: nat, randomAccess: bool)
    requires first <= last <= a.Length
    modifies a
    ensures a[..] == old(a[..first] + Reversed(a[first..last]) + a[last..])
  {
    if randomAccess { ReverseRandomAccess(a, first, last); } else { ReverseBidirectional(a, first, last); }
  }

  /** The array with the rearrangement made at pivot i, with successor j. */
  function AdvancedIn<T>(s: seq<T>, i: nat, j: nat, last: nat): seq<T>
    requires i < j < last <= |s|
  { s[..i] + Advanced(s[i..last], j - i) + s[last..] }

  lemma SwapThenReverse<T>(s: seq<T>, i: nat, j: nat, last: nat)
    requires i < j < last <= |s|
    ensures var w := Swapped(s, i, j); w[..i + 1] + Reversed(w[i + 1..last]) + w[last..] == AdvancedIn(s, i, j, last)
  {
    var w := Swapped(s, i, j);
    assert w[i + 1..last] == Swapped(s[i..last], 0, j - i)[1..];
    assert w[..i + 1] == s[..i] + [s[j]];
    assert w[last..] == s[last..];
  }

  /** iterSwap(i, j); reverse(ii, last) */
  method Advance<T>(a: array<T>, i: nat, j: nat, last: nat, randomAccess: bool)
    requires i < j < last <= a.Length
    modifies a
    ensures a[..] == AdvancedIn(old(a[..]), i, j, last)
  {
    SwapThenReverse(a[..], i, j, last);
    a[i], a[j] := a[j], a[i];
    assert a[..] == Swapped(old(a[..]), i, j);
    Reverse(a, i + 1, last, randomAccess);
  }

  /** From the back: the last element greater than the pivot. */
  method FindSuccessor<T>(less: (T, T) -> bool, a: array<T>, i: nat, last: nat) returns (j: nat)
    requires i + 1 < last <= a.Length && less(a[i], a[i + 1])
    ensures i < j < last && less(a[i], a[j]) && forall k :: j < k < last ==> !less(a[i], a[k])
  {
    j := last - 1;
    while !less(a[i], a[j])
      invariant i < j < last && forall k :: j < k < last ==> !less(a[i], a[k])
      decreases j
    {
      j := j - 1;
    }
  }

  lemma Join<T>(s: seq<T>, first: nat, i: nat, last: nat, t: seq<T>)
    requires first <= i <= last <= |s| && |t| == last - i
    ensures s[first..last] == s[first..i] + s[i..last]
    ensures var w := s[..i] + t + s[last..];
      |w| == |s| && w[..first] == s[..first] && w[last..] == s[last..] && w[first..last] == s[first..i] + t
  {
  }

  lemma {:induction false} KeysReversed<T>(less: (T, T) -> bool, base: seq<T>, s: seq<T>)
    ensures Keys(less, base, Reversed(s)) == Reversed(Keys(less, base, s))
    decreases |s|
  {
    if s != [] {
      var ks := Keys(less, base, s);
      KeysReversed(less, base, s[1..]);
      assert ks[1..] == Keys(less, base, s[1..]);
      assert Keys(less, base, Reversed(s[1..]) + [s[0]]) == Keys(less, base, Reversed(s[1..])) + [ks[0]];
    }
  }

  lemma KeysAdvanced<T>(less: (T, T) -> bool, base: seq<T>, p: seq<T>, s: seq<T>, j: nat)
    requires 0 < j < |s|
    ensures Keys(less, base, p + s) == Keys(less, base, p) + Keys(less, base, s)
    ensures Keys(less, base, p + Advanced(s, j)) == Keys(less, base, p) + Advanced(Keys(less, base, s), j)
  {
    var w, ks := Swapped(s, 0, j), Keys(less, base, s);
    KeysReversed(less, base, w[1..]);
    assert Keys(less, base, w[1..]) == Swapped(ks, 0, j)[1..];
    assert Keys(less, base, Advanced(s, j)) == [ks[j]] + Keys(less, base, Reversed(w[1..]));
    assert Keys(less, base, p + Advanced(s, j)) == Keys(less, base, p) + Keys(less, base, Advanced(s, j));
  }

  lemma AdvancedArrangement<T>(p: seq<T>, s: seq<T>, j: nat)
    requires 0 < j < |s|
    ensures Arrangement(p + s, p + Advanced(s, j))
  {
    var w := Swapped(s, 0, j);
    SwappedArrangement(s, 0, j);
    ReversedArrangement(w[1..]);
    Split(w);
    Split(Advanced(s, j));
    assert Advanced(s, j)[1..] == Reversed(w[1..]);
  }

  lemma KeysPivot<T(!new)>(less: (T, T) -> bool, base: seq<T>, s: seq<T>, j: nat)
    requires StrictWeakOrder(less) && Within(base, s) && 0 < j < |s| && less(s[0], s[j])
    requires (forall k :: j < k < |s| ==> !less(s[0], s[k])) && DescendingBy(less, s[1..])
    ensures PivotAtFront(Keys(less, base, s), j)
  {
    var ks := Keys(less, base, s);
    KeysDescending(less, base, s[1..]);
    assert Keys(less, base, s[1..]) == ks[1..];
    RankTells(less, base, s[0], s[j]);
    forall k | j < k < |s| ensures ks[k] <= ks[0] { RankTells(less, base, s[0], s[k]); }
  }

  /** On the range p + s: the pivot is the first element of s, and j its successor. */
  lemma AdvancedIsNextBy<T(!new)>(less: (T, T) -> bool, p: seq<T>, s: seq<T>, j: nat)
    requires StrictWeakOrder(less) && 0 < j < |s| && less(s[0], s[j])
    requires (forall k :: j < k < |s| ==> !less(s[0], s[k])) && DescendingBy(less, s[1..])
    ensures IsNextBy(less, p + s, p + Advanced(s, j))
  {
    var base := p + s;
    forall i | 0 <= i < |s| ensures s[i] in base { assert s[i] == base[|p| + i]; }
    KeysPivot(less, base, s, j);
    AdvancedIsNext(Keys(less, base, s), j);
    NextAfterPrefix(Keys(less, base, p), Keys(less, base, s), Advanced(Keys(less, base, s), j));
    KeysAdvanced(less, base, p, s, j);
    AdvancedArrangement(p, s, j);
    NextByKeys(less, base, p + Advanced(s, j));
  }

  lemma AdvancedRange<T(!new)>(less: (T, T) -> bool, s: seq<T>, first: nat, i: nat, j: nat, last: nat)
    requires StrictWeakOrder(less) && first <= i < j < last <= |s| && less(s[i], s[j])
    requires (forall k :: j < k < last ==> !less(s[i], s[k])) && DescendingBy(less, s[i + 1..last])
    ensures |AdvancedIn(s, i, j, last)| == |s|
    ensures var t := AdvancedIn(s, i, j, last);
      t[..first] == s[..first] && t[last..] == s[last..] && IsNextBy(less, s[first..last], t[first..last])
  {
    var r := s[i..last];
    assert r[1..] == s[i + 1..last];
    AdvancedIsNextBy(less, s[first..i], r, j - i);
    Join(s, first, i, last, Advanced(r, j - i));
  }

  lemma ReversedRange<T(!new)>(less: (T, T) -> bool, s: seq<T>, t: seq<T>, first: nat, last: nat)
    requires StrictWeakOrder(less) && first <= last <= |s| && DescendingBy(less, s[first..last])
    requires t == s[..first] + Reversed(s[first..last]) + s[last..]
    ensures |t| == |s| && t[..first] == s[..first] && t[last..] == s[last..]
    ensures SortedBy(less, t[first..last]) && Arrangement(s[first..last], t[first..last]) && IsLastBy(less, s[first..last])
  {
    var r := s[first..last];
    ReversedArrangement(r);
    assert t[first..last] == Reversed(r);
    forall i, j | 0 <= i < j < |r| ensures !less(Reversed(r)[j], Reversed(r)[i]) {
      ReversedAt(r, i);
      ReversedAt(r, j);
    }
    DescendingIsLast(less, r);
  }

  lemma ExtendDescending<T(!new)>(less: (T, T) -> bool, s: seq<T>, i: nat, last: nat)
    requires StrictWeakOrder(less) && i + 1 < last <= |s| && DescendingBy(less, s[i + 1..last]) && !less(s[i], s[i + 1])
    ensures DescendingBy(less, s[i..last])
  {
    var r, q := s[i..last], s[i + 1..last];
    forall x, y | 0 <= x < y < |r| ensures !less(r[x], r[y]) {
      assert q[0] == r[1] && q[y - 1] == r[y];
      if x > 0 { assert q[x - 1] == r[x]; }
      assert y > 1 ==> !less(q[0], q[y - 1]);
    }
  }

  /** From the back: two consecutive elements of which the first is less than the second. */
  method FindPivot<T(!new)>(less: (T, T) -> bool, a: array<T>, first: nat, last: nat) returns (found: bool, i: nat)
    requires StrictWeakOrder(less) && first + 1 < last <= a.Length
    ensures first <= i && i + 1 < last && DescendingBy(less, a[..][i + 1..last])
    ensures if found then less(a[i], a[i + 1]) else DescendingBy(less, a[..][first..last])
  {
    i := last - 2;
    found := less(a[i], a[i + 1]);
    while !found && i != first
      invariant first <= i && i + 1 < last && DescendingBy(less, a[..][i + 1..last]) && (found <==> less(a[i], a[i + 1]))
      decreases i
    {
      ExtendDescending(less, a[..], i, last);
      i := i - 1;
      found := less(a[i], a[i + 1]);
    }
    if !found { ExtendDescending(less, a[..], i, last); }
  }

  /** next_permutation: true exactly when there is a greater arrangement, and then the least of them;
      otherwise the sorted arrangement. */
  method NextPermutation<T(!new)>(less: (T, T) -> bool, a: array<T>, first: nat, last: nat, randomAccess: bool) returns (more: bool)
    requires StrictWeakOrder(less) && first <= last <= a.Length
    modifies a
    ensures a[..][..first] == old(a[..])[..first] && a[..][last..] == old(a[..])[last..]
    ensures more ==> IsNextBy(less, old(a[..])[first..last], a[..][first..last])
    ensures !more ==> IsLastBy(less, old(a[..])[first..last])
    ensures !more ==> SortedBy(less, a[..][first..last]) && Arrangement(old(a[..])[first..last], a[..][first..last])
  {
    more := false;
    if first == last || first == last - 1 {
      DescendingIsLast(less, a[..][first..last]);
    } else {
      var i;
      more, i := FindPivot(less, a, first, last);
      if more {
        var j := FindSuccessor(less, a, i, last);
        AdvancedRange(less, a[..], first, i, j, last);
        Advance(a, i, j, last, randomAccess);
      } else {
        Reverse(a, first, last, randomAccess);
        ReversedRange(less, old(a[..]), a[..], first, last);
      }
    }
  }
}
