/** table.sort (ltablib.c): quicksort with the median of three as pivot and sentinel. */
module Sort {
  import opened Shared

  /** Values to be sorted; nothing is known of them but the order that is given. */
  type Elem = int

  /** The order is a strict weak one: asymmetric, with a transitive negation. */
  ghost predicate StrictWeak(lt: (Elem, Elem) -> bool) {
    && (forall x, y :: lt(x, y) ==> !lt(y, x))
    && (forall x, y, z :: lt(x, z) ==> lt(x, y) || lt(y, z))
  }

  predicate Le(lt: (Elem, Elem) -> bool, x: Elem, y: Elem) { !lt(y, x) }

  ghost predicate Sorted(lt: (Elem, Elem) -> bool, s: seq<Elem>, l: int, u: int)
    requires 0 <= l && u < |s|
  {
    forall i, j :: l <= i < j <= u ==> Le(lt, s[i], s[j])
  }

  /** s' is s with the elements from l to u in another order. */
  ghost predicate Rearranged(s: seq<Elem>, s': seq<Elem>, l: int, u: int) {
    && |s'| == |s| && 0 <= l <= u + 1 <= |s|
    && (forall i :: 0 <= i < l || u < i < |s| ==> s'[i] == s[i])
    && multiset(s'[l..u + 1]) == multiset(s[l..u + 1])
  }

  function Swapped(s: seq<Elem>, i: int, j: int): seq<Elem>
    requires 0 <= i < |s| && 0 <= j < |s|
  {
    s[i := s[j]][j := s[i]]
  }

  lemma SwapRearranges(s: seq<Elem>, i: int, j: int, l: int, u: int)
    requires 0 <= l <= i <= u < |s| && l <= j <= u
    ensures Rearranged(s, Swapped(s, i, j), l, u)
  {
    var m := s[l..u + 1];
    assert Swapped(s, i, j)[l..u + 1] == m[i - l := s[j]][j - l := s[i]];
    assert multiset(m[i - l := s[j]]) == multiset(m) - multiset{s[i]} + multiset{s[j]};
  }

  lemma RearrangedTrans(s: seq<Elem>, s1: seq<Elem>, s2: seq<Elem>, l: int, u: int)
    requires Rearranged(s, s1, l, u) && Rearranged(s1, s2, l, u)
    ensures Rearranged(s, s2, l, u)
  {
  }

  /** A change in a part is a change in the whole. */
  lemma RearrangedWiden(s: seq<Elem>, s': seq<Elem>, l: int, u: int, l': int, u': int)
    requires Rearranged(s, s', l, u) && 0 <= l' <= l && u <= u' < |s| && l' <= u' + 1
    ensures Rearranged(s, s', l', u')
  {
    if l <= u + 1 {
      assert s[l'..u' + 1] == s[l'..l] + s[l..u + 1] + s[u + 1..u' + 1];
      assert s'[l'..u' + 1] == s'[l'..l] + s'[l..u + 1] + s'[u + 1..u' + 1];
      assert s'[l'..l] == s[l'..l] && s'[u + 1..u' + 1] == s[u + 1..u' + 1];
    }
  }

  /** What the elements of a part all satisfy they still satisfy in another order. */
  lemma RearrangedFrom(s: seq<Elem>, s': seq<Elem>, l: int, u: int, k: int) returns (m: int)
    requires Rearranged(s, s', l, u) && l <= k <= u
    ensures l <= m <= u && s'[k] == s[m]
  {
    var x := s'[k];
    assert x == s'[l..u + 1][k - l];
    assert x in multiset(s'[l..u + 1]);
    assert x in s[l..u + 1];
    var n :| 0 <= n < |s[l..u + 1]| && s[l..u + 1][n] == x;
    m := l + n;
  }

  // --------------------------------------------------------------- partition

  /** Everything from l to u is on the right side of the element at i. */
  ghost predicate Around(lt: (Elem, Elem) -> bool, s: seq<Elem>, l: int, u: int, i: int)
    requires 0 <= l <= i <= u < |s|
  {
    (forall k :: l <= k < i ==> Le(lt, s[k], s[i])) && (forall k :: i < k <= u ==> Le(lt, s[i], s[k]))
  }

  /** set2 exchanges two elements. */
  method Swap(a: array<Elem>, i: int, j: int)
    requires 0 <= i < a.Length && 0 <= j < a.Length
    modifies a
    ensures a[..] == Swapped(old(a[..]), i, j)
  {
    a[i], a[j] := a[j], a[i];
  }

  /** Two elements in order, and then a third between them. */
  function Two(lt: (Elem, Elem) -> bool, s: seq<Elem>, l: int, u: int): seq<Elem>
    requires 0 <= l < |s| && 0 <= u < |s|
  {
    if lt(s[u], s[l]) then Swapped(s, l, u) else s
  }

  function Three(lt: (Elem, Elem) -> bool, s: seq<Elem>, l: int, i: int, u: int): seq<Elem>
    requires 0 <= l < |s| && 0 <= i < |s| && 0 <= u < |s|
  {
    if lt(s[i], s[l]) then Swapped(s, i, l) else if lt(s[u], s[i]) then Swapped(s, i, u) else s
  }

  lemma TwoOk(lt: (Elem, Elem) -> bool, s: seq<Elem>, l: int, u: int)
    requires StrictWeak(lt) && 0 <= l < u < |s|
    ensures Rearranged(s, Two(lt, s, l, u), l, u) && Le(lt, Two(lt, s, l, u)[l], Two(lt, s, l, u)[u])
  {
    SwapRearranges(s, l, u, l, u);
  }

  lemma ThreeOk(lt: (Elem, Elem) -> bool, s: seq<Elem>, l: int, i: int, u: int)
    requires StrictWeak(lt) && 0 <= l < i < u < |s| && Le(lt, s[l], s[u])
    ensures var t := Three(lt, s, l, i, u);
      Rearranged(s, t, l, u) && Le(lt, t[l], t[u]) && Le(lt, t[l], t[i]) && Le(lt, t[i], t[u])
  {
    SwapRearranges(s, i, l, l, u);
    SwapRearranges(s, i, u, l, u);
    hide Rearranged;
  }

  /** The elements at l, in the middle and at u are put in order. */
  method MedianOfThree(a: array<Elem>, lt: (Elem, Elem) -> bool, l: int, u: int) returns (i: int)
    requires StrictWeak(lt) && 0 <= l < u < a.Length
    modifies a
    ensures Rearranged(old(a[..]), a[..], l, u) && i == (l + u) / 2
    ensures Le(lt, a[l], a[u]) && (u - l > 1 ==> l < i < u && Le(lt, a[l], a[i]) && Le(lt, a[i], a[u]))
  {
    hide Rearranged, StrictWeak, Le, Swapped;
    ghost var s := a[..];
    TwoOk(lt, s, l, u);
    if lt(a[u], a[l]) {
      Swap(a, l, u);
    }
    ghost var s1 := a[..];
    assert s1 == Two(lt, s, l, u);
    i := (l + u) / 2;
    if u - l == 1 {
      return;
    }
    ThreeOk(lt, s1, l, i, u);
    if lt(a[i], a[l]) {
      Swap(a, i, l);
    } else if lt(a[u], a[i]) {
      Swap(a, i, u);
    }
    assert a[..] == Three(lt, s1, l, i, u);
    RearrangedTrans(s, s1, a[..], l, u);
  }

  /** Elements up to i are not above the pivot, those from j on not below. */
  ghost predicate Parted(lt: (Elem, Elem) -> bool, s: seq<Elem>, l: int, u: int, i: int, j: int, pivot: Elem) {
    && 0 <= l <= i < |s| && 0 <= j <= u < |s|
    && (forall k :: l <= k <= i ==> Le(lt, s[k], pivot)) && (forall k :: j <= k <= u ==> Le(lt, pivot, s[k]))
  }

  /** The two inner loops: the next elements that are on the wrong side. The test for an invalid
      order function never succeeds, and no element outside l..u is looked at. */
  method Advance(a: array<Elem>, lt: (Elem, Elem) -> bool, l: int, u: int, i0: int, j0: int, pivot: Elem)
      returns (i: int, j: int)
    requires StrictWeak(lt) && u < a.Length && i0 <= j0 < u && (i0 == j0 ==> l < i0 && j0 < u - 1)
      && Parted(lt, a[..], l, u, i0, j0, pivot)
    ensures l <= i0 < i < u && l <= j < j0 && !lt(a[i], pivot) && !lt(pivot, a[j])
    ensures (forall k :: l <= k < i ==> Le(lt, a[k], pivot)) && (forall k :: j < k <= u ==> Le(lt, pivot, a[k]))
  {
    assert forall k :: 0 <= k < a.Length ==> a[..][k] == a[k];
    i, j := i0 + 1, j0 - 1;
    while lt(a[i], pivot)
      invariant i0 < i && (i <= j0 || i == i0 + 1) && i < u && forall k :: l <= k < i ==> Le(lt, a[k], pivot)
      decreases u - i
    {
      assert i <= u;
      i := i + 1;
    }
    while lt(pivot, a[j])
      invariant l <= j < j0 && forall k :: j < k <= u ==> Le(lt, pivot, a[k])
      decreases j
    {
      assert j >= l;
      j := j - 1;
    }
  }

  /** The part of auxsort between choosing the pivot and the recursive call. */
  method Partition(a: array<Elem>, lt: (Elem, Elem) -> bool, l: int, u: int, m: int) returns (i: int)
    requires StrictWeak(lt) && 0 <= l < m < u < a.Length && m < u && l + 3 <= u && Le(lt, a[l], a[m])
      && Le(lt, a[m], a[u])
    modifies a
    ensures Rearranged(old(a[..]), a[..], l, u) && l < i < u && Around(lt, a[..], l, u, i)
  {
    hide Rearranged, Parted, Around, StrictWeak;
    ghost var s := a[..];
    var pivot := a[m];
    SwapRearranges(s, m, u - 1, l, u);
    PartStart(lt, s, Swapped(s, m, u - 1), l, u, m);
    Swap(a, m, u - 1);
    i := l;
    var j := u - 1;
    while true
      invariant l <= i <= j <= u - 1 && (i == j ==> l < i && j < u - 1) && Rearranged(s, a[..], l, u)
        && Parted(lt, a[..], l, u, i, j, pivot) && a[u - 1] == pivot
      decreases u - i
    {
      i, j := Advance(a, lt, l, u, i, j, pivot);
      if j < i {
        break;
      }
      PartStep(lt, s, a[..], l, u, i, j, pivot);
      Swap(a, i, j);
    }
    PartEnd(lt, s, a[..], l, u, i, pivot);
    Swap(a, u - 1, i);
  }

  lemma PartStart(lt: (Elem, Elem) -> bool, s: seq<Elem>, s': seq<Elem>, l: int, u: int, m: int)
    requires StrictWeak(lt) && 0 <= l < m < u < |s| && l + 3 <= u && Le(lt, s[l], s[m]) && Le(lt, s[m], s[u])
      && s' == Swapped(s, m, u - 1)
    ensures Parted(lt, s', l, u, l, u - 1, s[m])
  {
  }

  lemma PartStep(lt: (Elem, Elem) -> bool, s0: seq<Elem>, s: seq<Elem>, l: int, u: int, i: int, j: int, pivot: Elem)
    requires Rearranged(s0, s, l, u) && 0 <= l < i <= j < u - 1 < |s| - 1 && !lt(s[i], pivot) && !lt(pivot, s[j])
      && s[u - 1] == pivot
    requires (forall k :: l <= k < i ==> Le(lt, s[k], pivot)) && (forall k :: j < k <= u ==> Le(lt, pivot, s[k]))
    ensures var s' := Swapped(s, i, j);
      Rearranged(s0, s', l, u) && s'[u - 1] == pivot && Parted(lt, s', l, u, i, j, pivot)
  {
    SwapRearranges(s, i, j, l, u);
    RearrangedTrans(s0, s, Swapped(s, i, j), l, u);
  }

  lemma PartEnd(lt: (Elem, Elem) -> bool, s0: seq<Elem>, s: seq<Elem>, l: int, u: int, i: int, pivot: Elem)
    requires Rearranged(s0, s, l, u) && 0 <= l < i < u < |s| && s[u - 1] == pivot && !lt(s[i], pivot)
    requires (forall k :: l <= k < i ==> Le(lt, s[k], pivot)) && (forall k :: i <= k <= u ==> Le(lt, pivot, s[k]))
    ensures var s' := Swapped(s, u - 1, i); Rearranged(s0, s', l, u) && Around(lt, s', l, u, i)
  {
    SwapRearranges(s, u - 1, i, l, u);
    RearrangedTrans(s0, s, Swapped(s, u - 1, i), l, u);
  }

  // ------------------------------------------------------------------ sorting

  /** From l0 to u0 only elements between l and u may still be out of order with each other. */
  ghost predicate Placed(lt: (Elem, Elem) -> bool, s: seq<Elem>, l0: int, u0: int, l: int, u: int) {
    && 0 <= l0 <= l <= u + 1 <= u0 + 1 <= |s|
    && forall x, y :: l0 <= x < y <= u0 && (x < l || y > u) ==> Le(lt, s[x], s[y])
  }

  lemma PlacedRearranged(lt: (Elem, Elem) -> bool, s: seq<Elem>, s': seq<Elem>, l0: int, u0: int, l: int, u: int)
    requires Placed(lt, s, l0, u0, l, u) && Rearranged(s, s', l, u)
    ensures Placed(lt, s', l0, u0, l, u)
  {
    forall x, y | l0 <= x < y <= u0 && (x < l || y > u) ensures Le(lt, s'[x], s'[y]) {
      var x', y' := x, y;
      if l <= x <= u { x' := RearrangedFrom(s, s', l, u, x); }
      if l <= y <= u { y' := RearrangedFrom(s, s', l, u, y); }
      assert Le(lt, s[x'], s[y']);
    }
  }

  lemma AroundRearranged(lt: (Elem, Elem) -> bool, s: seq<Elem>, s': seq<Elem>, l: int, u: int, i: int, left: bool)
    requires 0 <= l <= i <= u < |s| && Around(lt, s, l, u, i)
      && (if left then Rearranged(s, s', l, i - 1) else Rearranged(s, s', i + 1, u))
    ensures |s'| == |s| && Around(lt, s', l, u, i)
  {
    forall k | l <= k < i ensures Le(lt, s'[k], s'[i]) {
      if left { var m := RearrangedFrom(s, s', l, i - 1, k); }
    }
    forall k | i < k <= u ensures Le(lt, s'[i], s'[k]) {
      if !left { var m := RearrangedFrom(s, s', i + 1, u, k); }
    }
  }

  /** Once one side of the pivot is sorted only the other side is left. */
  lemma HalfDone(lt: (Elem, Elem) -> bool, s: seq<Elem>, l0: int, u0: int, l: int, u: int, i: int, left: bool)
    requires StrictWeak(lt) && Placed(lt, s, l0, u0, l, u) && l <= i <= u && Around(lt, s, l, u, i)
    requires if left then Sorted(lt, s, l, i - 1) else Sorted(lt, s, i + 1, u)
    ensures if left then Placed(lt, s, l0, u0, i + 1, u) else Placed(lt, s, l0, u0, l, i - 1)
  {
    forall x, y | l <= x < y <= u && (if left then x <= i else y >= i) ensures Le(lt, s[x], s[y]) {
      if x <= i <= y {
        assert Le(lt, s[x], s[i]) || x == i;
        assert Le(lt, s[i], s[y]) || y == i;
      }
    }
  }

  /** At most floor(log2 n) + 1 activations are nested for n elements. */
  predicate Shallow(depth: nat, n: int) { depth >= 1 && Pow2(depth - 1) <= if n > 1 then n else 1 }

  /** auxsort; depth is the largest number of activations at any time. */
  method Auxsort(a: array<Elem>, lt: (Elem, Elem) -> bool, l0: int, u0: int) returns (ghost depth: nat)
    requires StrictWeak(lt) && 0 <= l0 <= u0 + 1 <= a.Length
    modifies a
    ensures Rearranged(old(a[..]), a[..], l0, u0) && Sorted(lt, a[..], l0, u0) && Shallow(depth, u0 - l0 + 1)
    decreases u0 - l0 + 1, 1
  {
    var l, u := l0, u0;
    ghost var s0 := a[..];
    depth := 1;
    hide *;
    SortStart(lt, s0, l0, u0);
    while l < u
      invariant Placed(lt, a[..], l0, u0, l, u) && Rearranged(s0, a[..], l0, u0) && Shallow(depth, u0 - l0 + 1)
      decreases u - l
    {
      PlacedRange(lt, a[..], l0, u0, l, u);
      ghost var s := a[..];
      var i, done := SplitRange(a, lt, l, u);
      StepIn(lt, s0, s, a[..], l0, u0, l, u);
      if done {
        FewDone(lt, a[..], l0, u0, l, u);
        return;
      }
      l, u, depth := SortSmaller(a, lt, l, u, i, s0, l0, u0, depth);
    }
    SortEnd(lt, a[..], l0, u0, l, u);
  }

  /** The smaller side of the element at i is sorted by a call, the larger one left to the loop. */
  method SortSmaller(a: array<Elem>, lt: (Elem, Elem) -> bool, l: int, u: int, i: int, ghost s0: seq<Elem>,
      ghost l0: int, ghost u0: int, ghost depth0: nat)
    returns (l': int, u': int, ghost depth: nat)
    requires StrictWeak(lt) && l0 <= l < i < u <= u0 && l + 3 <= u && u0 < a.Length && 0 <= l0
    requires Placed(lt, a[..], l0, u0, l, u) && Rearranged(s0, a[..], l0, u0) && Around(lt, a[..], l, u, i)
      && Shallow(depth0, u0 - l0 + 1)
    modifies a
    ensures Placed(lt, a[..], l0, u0, l', u') && Rearranged(s0, a[..], l0, u0) && Shallow(depth, u0 - l0 + 1)
      && -1 <= u' - l' < u - l
    decreases u - l + 1, 0
  {
    hide *;
    ghost var s := a[..];
    ghost var d;
    l', u' := l, u;
    if i - l < u - i {
      d := Auxsort(a, lt, l, i - 1);
      StepHalf(lt, s0, s, a[..], l0, u0, l, u, i, true);
      Deeper(d, i - l, u0 - l0 + 1, depth0);
      l' := i + 1;
    } else {
      d := Auxsort(a, lt, i + 1, u);
      StepHalf(lt, s0, s, a[..], l0, u0, l, u, i, false);
      Deeper(d, u - i, u0 - l0 + 1, depth0);
      u' := i - 1;
    }
    depth := if d + 1 > depth0 then d + 1 else depth0;
  }

  lemma SortStart(lt: (Elem, Elem) -> bool, s: seq<Elem>, l0: int, u0: int)
    requires 0 <= l0 <= u0 + 1 <= |s|
    ensures Placed(lt, s, l0, u0, l0, u0) && Rearranged(s, s, l0, u0) && Shallow(1, u0 - l0 + 1)
  {
  }

  lemma SortEnd(lt: (Elem, Elem) -> bool, s: seq<Elem>, l0: int, u0: int, l: int, u: int)
    requires Placed(lt, s, l0, u0, l, u) && l >= u
    ensures Sorted(lt, s, l0, u0)
  {
  }

  /** The loop body of auxsort up to the recursive call: two or three elements are put in order,
      more are parted at i. */
  method SplitRange(a: array<Elem>, lt: (Elem, Elem) -> bool, l: int, u: int) returns (i: int, done: bool)
    requires StrictWeak(lt) && 0 <= l < u < a.Length
    modifies a
    ensures Rearranged(old(a[..]), a[..], l, u) && done == (u - l <= 2)
    ensures if done then Sorted(lt, a[..], l, u) else l < i < u && Around(lt, a[..], l, u, i)
  {
    hide Rearranged, Around, StrictWeak;
    ghost var s := a[..];
    i := MedianOfThree(a, lt, l, u);
    if u - l <= 2 {
      done := true;
      return;
    }
    ghost var s1 := a[..];
    i := Partition(a, lt, l, u, i);
    RearrangedTrans(s, s1, a[..], l, u);
    done := false;
  }

  lemma PlacedRange(lt: (Elem, Elem) -> bool, s: seq<Elem>, l0: int, u0: int, l: int, u: int)
    requires Placed(lt, s, l0, u0, l, u)
    ensures 0 <= l0 <= l && u <= u0 < |s|
  {
  }

  lemma StepIn(lt: (Elem, Elem) -> bool, s0: seq<Elem>, s: seq<Elem>, s': seq<Elem>, l0: int, u0: int, l: int, u: int)
    requires Placed(lt, s, l0, u0, l, u) && Rearranged(s0, s, l0, u0) && Rearranged(s, s', l, u)
    ensures Placed(lt, s', l0, u0, l, u) && Rearranged(s0, s', l0, u0)
  {
    PlacedRearranged(lt, s, s', l0, u0, l, u);
    RearrangedWiden(s, s', l, u, l0, u0);
    RearrangedTrans(s0, s, s', l0, u0);
  }

  lemma StepHalf(lt: (Elem, Elem) -> bool, s0: seq<Elem>, s: seq<Elem>, s': seq<Elem>, l0: int, u0: int, l: int,
      u: int, i: int, left: bool)
    requires StrictWeak(lt) && Placed(lt, s, l0, u0, l, u) && Rearranged(s0, s, l0, u0) && 0 <= l < i < u < |s|
      && Around(lt, s, l, u, i)
    requires if left then Rearranged(s, s', l, i - 1) && Sorted(lt, s', l, i - 1)
      else Rearranged(s, s', i + 1, u) && Sorted(lt, s', i + 1, u)
    ensures if left then Placed(lt, s', l0, u0, i + 1, u) else Placed(lt, s', l0, u0, l, i - 1)
    ensures Rearranged(s0, s', l0, u0)
  {
    AroundRearranged(lt, s, s', l, u, i, left);
    if left {
      RearrangedWiden(s, s', l, i - 1, l, u);
    } else {
      RearrangedWiden(s, s', i + 1, u, l, u);
    }
    hide Rearranged, Around, Sorted, StrictWeak;
    StepIn(lt, s0, s, s', l0, u0, l, u);
    HalfDone(lt, s', l0, u0, l, u, i, left);
  }

  /** The elements that might have been out of order are not. */
  lemma FewDone(lt: (Elem, Elem) -> bool, s: seq<Elem>, l0: int, u0: int, l: int, u: int)
    requires Placed(lt, s, l0, u0, l, u) && 0 <= l && u < |s| && Sorted(lt, s, l, u)
    ensures Sorted(lt, s, l0, u0)
  {
  }

  lemma Deeper(d: nat, m: int, n: int, depth: nat)
    requires Shallow(d, m) && Shallow(depth, n) && 0 <= m && 2 * m + 1 <= n && n >= 4
    ensures Shallow(if d + 1 > depth then d + 1 else depth, n)
  {
    assert Pow2(d) == 2 * Pow2(d - 1);
  }
}
