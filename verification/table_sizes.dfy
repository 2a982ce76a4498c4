/** How rehash chooses the size of the array part. */
module TableSizes {
  import opened Shared
  import opened TableChain

  const MAXBITS: nat := 26

  lemma {:induction false} Pow2Mono(i: nat, j: nat)
    requires i <= j
    ensures Pow2(i) <= Pow2(j) && (i < j ==> 2 * Pow2(i) <= Pow2(j))
    decreases j - i
  {
    if i < j {
      Pow2Mono(i, j - 1);
    }
  }

  /** The slices of rehash are (Half(i), Pow2(i)]. */
  function Half(i: nat): nat { if i == 0 then 0 else Pow2(i - 1) }

  predicate InRange(k: TValue, lo: int, hi: int) { k.Num? && lo < k.n <= hi }

  /** How many of the keys are integers in (lo, hi]? */
  function CountIn(ks: seq<TValue>, lo: int, hi: int): nat {
    if ks == [] then 0 else CountIn(ks[..|ks| - 1], lo, hi) + if InRange(ks[|ks| - 1], lo, hi) then 1 else 0
  }

  predicate AllDistinct(ks: seq<TValue>) { forall i, j :: 0 <= i < j < |ks| ==> ks[i] != ks[j] }

  lemma {:induction false} CountSplit(ks: seq<TValue>, lo: int, mid: int, hi: int)
    requires lo <= mid <= hi
    ensures CountIn(ks, lo, hi) == CountIn(ks, lo, mid) + CountIn(ks, mid, hi)
  {
    if ks != [] {
      CountSplit(ks[..|ks| - 1], lo, mid, hi);
    }
  }

  lemma {:induction false} CountConcat(ks: seq<TValue>, ls: seq<TValue>, lo: int, hi: int)
    ensures CountIn(ks + ls, lo, hi) == CountIn(ks, lo, hi) + CountIn(ls, lo, hi)
  {
    if ls == [] {
      assert ks + ls == ks;
    } else {
      var init := ls[..|ls| - 1];
      assert (ks + ls)[..|ks + ls| - 1] == ks + init;
      CountConcat(ks, init, lo, hi);
    }
  }

  lemma {:induction false} CountNone(ks: seq<TValue>, lo: int, hi: int)
    requires forall k :: k in ks ==> !InRange(k, lo, hi)
    ensures CountIn(ks, lo, hi) == 0
  {
    if ks != [] {
      CountNone(ks[..|ks| - 1], lo, hi);
    }
  }

  /** Distinct keys leave room for at most one per index. */
  lemma {:induction false} CountBound(ks: seq<TValue>, lo: int, hi: int)
    requires AllDistinct(ks) && lo <= hi
    ensures CountIn(ks, lo, hi) <= hi - lo
    decreases hi - lo
  {
    if lo == hi {
      CountNone(ks, lo, hi);
    } else {
      CountSplit(ks, lo, hi - 1, hi);
      CountBound(ks, lo, hi - 1);
      CountOne(ks, hi);
    }
  }

  lemma {:induction false} CountOne(ks: seq<TValue>, n: int)
    requires AllDistinct(ks)
    ensures CountIn(ks, n - 1, n) <= 1
  {
    if ks != [] {
      var init := ks[..|ks| - 1];
      if ks[|ks| - 1] == Num(n) {
        CountNone(init, n - 1, n);
      } else {
        CountOne(init, n);
      }
    }
  }

  lemma {:induction false} CountAtMost(ks: seq<TValue>, lo: int, hi: int)
    ensures CountIn(ks, lo, hi) <= |ks|
  {
    if ks != [] {
      CountAtMost(ks[..|ks| - 1], lo, hi);
    }
  }

  /** More than half of the indices 1..n are keys. */
  predicate Dense(ks: seq<TValue>, n: int) { 2 * CountIn(ks, 0, n) > n }

  ghost predicate Sliced(nums: seq<int>, ks: seq<TValue>) {
    |nums| == MAXBITS + 1 && forall i :: 0 <= i <= MAXBITS ==> nums[i] == CountIn(ks, Half(i), Pow2(i))
  }

  /** n is 0 or the largest power of two below Pow2(m) such that more than half of 1..n are keys. */
  ghost predicate BestBelow(ks: seq<TValue>, m: int, n: int) {
    && (n == 0 || (Dense(ks, n) && exists i :: 0 <= i < m && n == Pow2(i)))
    && forall i :: 0 <= i < m && Dense(ks, Pow2(i)) ==> Pow2(i) <= n
  }

  ghost predicate BestSize(ks: seq<TValue>, n: int) { BestBelow(ks, MAXBITS + 1, n) }

  lemma BestStart(ks: seq<TValue>)
    ensures BestBelow(ks, 0, 0) && CountIn(ks, 0, 0) == 0 && Half(0) == 0 && Pow2(0) == 1
  {
    CountNone(ks, 0, 0);
  }

  lemma BestStep(ks: seq<TValue>, i: nat, n: int)
    requires BestBelow(ks, i, n)
    ensures BestBelow(ks, i + 1, if Dense(ks, Pow2(i)) then Pow2(i) else n)
  {
    forall j | 0 <= j < i ensures Pow2(j) <= Pow2(i) { Pow2Mono(j, i); }
  }

  /** Once all integer keys have been counted no larger size is dense. */
  lemma RestSparse(ks: seq<TValue>, i: nat, n: int)
    requires AllDistinct(ks) && i <= MAXBITS + 1 && BestBelow(ks, i, n)
    requires Pow2(i) / 2 >= CountIn(ks, 0, Pow2(MAXBITS))
      || (i > 0 && CountIn(ks, 0, Pow2(MAXBITS)) == CountIn(ks, 0, Pow2(i - 1)))
    ensures BestSize(ks, n)
  {
    forall j | i <= j <= MAXBITS ensures !Dense(ks, Pow2(j)) {
      if i > 0 { CountBound(ks, 0, Pow2(i - 1)); }
      Pow2Mono(i, j);
      Pow2Mono(j, MAXBITS);
      CountSplit(ks, 0, Pow2(j), Pow2(MAXBITS));
    }
  }

  /** computesizes: nums counts the integer keys among ks by slices, narray all of them. */
  method ComputeSizes(nums: array<int>, narray: int, ghost ks: seq<TValue>) returns (n: int, na: int)
    requires AllDistinct(ks) && Sliced(nums[..], ks) && narray == CountIn(ks, 0, Pow2(MAXBITS))
    ensures BestSize(ks, n) && na == CountIn(ks, 0, n)
  {
    var a, i, twotoi := 0, 0, 1;
    na, n := 0, 0;
    hide *;
    SlicedAt(nums[..], ks, 0);
    BestStart(ks);
    AllSlices(ks);
    ghost var top := Pow2(MAXBITS);
    while twotoi / 2 < narray
      invariant 0 <= i <= MAXBITS + 1 && twotoi == Pow2(i) && a == CountIn(ks, 0, Half(i)) && na == CountIn(ks, 0, n)
        && BestBelow(ks, i, n)
      decreases MAXBITS + 1 - i
    {
      assert i <= MAXBITS;
      SlicedAt(nums[..], ks, i);
      CountSlice(ks, i);
      BestStep(ks, i, n);
      ghost var dense := Dense(ks, Pow2(i));
      if nums[i] > 0 {
        a := a + nums[i];
        if a > twotoi / 2 {
          n, na := twotoi, a;
        }
      }
      assert a == CountIn(ks, 0, Pow2(i)) && (dense <==> a > twotoi / 2);
      i, twotoi := i + 1, twotoi * 2;
      if a == narray {
        break;
      }
    }
    RestSparse(ks, i, n);
  }

  lemma AllSlices(ks: seq<TValue>)
    requires AllDistinct(ks)
    ensures CountIn(ks, 0, Pow2(MAXBITS)) <= Pow2(MAXBITS) && Pow2(MAXBITS + 1) == 2 * Pow2(MAXBITS)
  {
    CountBound(ks, 0, Pow2(MAXBITS));
    HalfNext(MAXBITS);
  }

  lemma SlicedAt(nums: seq<int>, ks: seq<TValue>, i: nat)
    requires Sliced(nums, ks) && i <= MAXBITS
    ensures |nums| == MAXBITS + 1 && nums[i] == CountIn(ks, Half(i), Pow2(i))
  {
  }

  /** One more slice. */
  lemma CountSlice(ks: seq<TValue>, i: nat)
    requires AllDistinct(ks)
    ensures CountIn(ks, 0, Half(i + 1)) == CountIn(ks, 0, Half(i)) + CountIn(ks, Half(i), Pow2(i))
      && Half(i + 1) == Pow2(i)
    ensures CountIn(ks, 0, Half(i)) <= Pow2(i) / 2 && Pow2(i + 1) == 2 * Pow2(i)
    ensures Dense(ks, Pow2(i)) <==> CountIn(ks, 0, Half(i + 1)) > Pow2(i) / 2
  {
    CountSplit(ks, 0, Half(i), Pow2(i));
    CountBound(ks, 0, Half(i));
  }

  // ---------------------------------------------------------------- logarithms

  /** luaO_log2: the position of the highest bit, -1 for 0; log_2 is the table of bit lengths
      of the numbers below 256. */
  method Log2(x: nat) returns (l: int)
    ensures x == 0 ==> l == -1
    ensures x > 0 ==> l >= 0 && Pow2(l) <= x < Pow2(l + 1)
  {
    hide Within, Pow2;
    var y := x;
    ghost var s := 0;
    l := -1;
    WithinSelf(x);
    while y >= 256
      invariant l == 8 * s - 1 && s >= 0
      invariant Within(x, y, 8 * s) && (x > 0 ==> y > 0) && (x == 0 ==> s == 0)
      decreases y
    {
      WithinZero(x, y, 8 * s);
      ByteShift(x, y, 8 * s);
      l, y, s := l + 8, y / 256, s + 1;
    }
    var b := BitLength(y);
    WithinZero(x, y, 8 * s);
    if y > 0 {
      Shifted(x, y, b - 1, 8 * s);
    }
    l := l + b;
  }

  /** y is x without its k lowest bits. */
  ghost predicate Within(x: int, y: int, k: nat) { y * Pow2(k) <= x < (y + 1) * Pow2(k) }

  lemma WithinSelf(x: int)
    ensures Within(x, x, 0)
  {
  }

  lemma WithinZero(x: int, y: int, k: nat)
    requires Within(x, y, k) && y >= 0
    ensures x == 0 ==> y == 0
  {
    if y > 0 {
      MulMono(1, y, Pow2(k));
    }
  }

  /** The entries of the table log_2. */
  function BitLength(y: nat): (b: nat)
    ensures y == 0 ==> b == 0
    ensures y > 0 ==> b > 0 && Pow2(b - 1) <= y < Pow2(b)
  {
    if y == 0 then 0 else BitLength(y / 2) + 1
  }

  lemma {:induction false} Pow2Add(i: nat, j: nat)
    ensures Pow2(i + j) == Pow2(i) * Pow2(j)
  {
    if i > 0 {
      Pow2Add(i - 1, j);
      assert Pow2(i + j) == 2 * Pow2(i - 1 + j) && Pow2(i) == 2 * Pow2(i - 1);
    }
  }

  lemma ByteShift(x: int, y: int, k: nat)
    requires y >= 0 && Within(x, y, k)
    ensures Within(x, y / 256, k + 8)
  {
    Pow2Add(k, 8);
    assert Pow2(8) == 256 by { assert Pow2(4) == 16; Pow2Add(4, 4); }
    hide Pow2;
    var p, q, rem := Pow2(k), y / 256, y % 256;
    Regroup(q, rem, p);
    MulMono(0, rem, p);
    MulMono(rem + 1, 256, p);
  }

  lemma Regroup(q: int, rem: int, p: int)
    ensures (256 * q + rem) * p == q * (256 * p) + rem * p && (256 * q + rem + 1) * p == q * (256 * p) + (rem + 1) * p
    ensures (q + 1) * (256 * p) == q * (256 * p) + 256 * p
  {
  }

  lemma MulMono(a: int, b: int, p: int)
    requires a <= b && p >= 0
    ensures a * p <= b * p
  {
  }

  lemma Shifted(x: int, y: int, b: nat, k: nat)
    requires Within(x, y, k) && Pow2(b) <= y < Pow2(b + 1)
    ensures Pow2(k + b) <= x < Pow2(k + b + 1)
  {
    Pow2Add(b, k);
    Pow2Add(b + 1, k);
    MulMono(Pow2(b), y, Pow2(k));
    MulMono(y + 1, Pow2(b + 1), Pow2(k));
  }

  /** ceillog2 finds the slice of an index. */
  method CeilLog2(x: nat) returns (l: nat)
    requires x > 0
    ensures Half(l) < x <= Pow2(l)
  {
    var k := Log2(x - 1);
    l := k + 1;
  }

  // ------------------------------------------------------------ counting keys

  /** The keys of the array part that have values. */
  function ArrayKeys(a: seq<TValue>): seq<TValue> {
    if a == [] then [] else ArrayKeys(a[..|a| - 1]) + if a[|a| - 1] != Nil then [Num(|a|)] else []
  }

  /** The keys of the hash part that have values. */
  function HashKeys(ns: seq<Node>): seq<TValue> {
    if ns == [] then [] else HashKeys(ns[1..]) + if ns[0].val != Nil then [ns[0].key] else []
  }

  lemma {:induction false} ArrayKeysIn(a: seq<TValue>)
    ensures forall k :: k in ArrayKeys(a) <==> k.Num? && 1 <= k.n <= |a| && a[k.n - 1] != Nil
    ensures AllDistinct(ArrayKeys(a))
  {
    if a != [] {
      ArrayKeysIn(a[..|a| - 1]);
    }
  }

  /** Indices above hi do not matter for a slice up to hi. */
  lemma {:induction false} ArrayPrefix(a: seq<TValue>, j: nat, lo: int, hi: int)
    requires j <= |a| && (hi <= j || j == |a|)
    ensures CountIn(ArrayKeys(a), lo, hi) == CountIn(ArrayKeys(a[..j]), lo, hi)
    decreases |a|
  {
    if j < |a| {
      var init := a[..|a| - 1];
      ArrayPrefix(init, j, lo, hi);
      assert init[..j] == a[..j];
      CountConcat(ArrayKeys(init), if a[|a| - 1] != Nil then [Num(|a|)] else [], lo, hi);
      CountNone(if a[|a| - 1] != Nil then [Num(|a|)] else [], lo, hi);
    } else {
      assert a[..j] == a;
    }
  }

  lemma ArrayBelow(a: seq<TValue>, j: nat, lo: int, hi: int)
    requires j <= |a| && j <= lo
    ensures CountIn(ArrayKeys(a[..j]), lo, hi) == 0
  {
    ArrayKeysIn(a[..j]);
    CountNone(ArrayKeys(a[..j]), lo, hi);
  }

  /** One more index. */
  lemma ArrayNext(a: seq<TValue>, i: nat, lo: int, hi: int)
    requires i < |a| && lo < i + 1 <= hi
    ensures CountIn(ArrayKeys(a[..i + 1]), lo, hi) == CountIn(ArrayKeys(a[..i]), lo, hi) + if a[i] != Nil then 1 else 0
    ensures |ArrayKeys(a[..i + 1])| == |ArrayKeys(a[..i])| + if a[i] != Nil then 1 else 0
  {
    assert a[..i + 1][..i] == a[..i];
    var last := if a[i] != Nil then [Num(i + 1)] else [];
    assert ArrayKeys(a[..i + 1]) == ArrayKeys(a[..i]) + last;
    CountConcat(ArrayKeys(a[..i]), last, lo, hi);
    assert a[i] != Nil ==> last[..0] == [] && CountIn(last, lo, hi) == CountIn(last[..0], lo, hi) + 1;
  }

  ghost predicate Counted(nums0: seq<int>, nums: seq<int>, ks: seq<TValue>, upto: int) {
    && |nums| == |nums0| == MAXBITS + 1
    && forall i :: 0 <= i <= MAXBITS ==> nums[i] == nums0[i] + if i < upto then CountIn(ks, Half(i), Pow2(i)) else 0
  }

  /** numusearray */
  method NumUseArray(a: seq<TValue>, nums: array<int>) returns (ause: int)
    requires nums.Length == MAXBITS + 1 && |a| <= Pow2(MAXBITS)
    modifies nums
    ensures ause == |ArrayKeys(a)| && Counted(old(nums[..]), nums[..], ArrayKeys(a), MAXBITS + 1)
  {
    var i, lg, ttlg := 1, 0, 1;
    ause := 0;
    hide *;
    CountedNone(nums[..], ArrayKeys(a));
    HalfNone(a);
    HalfNext(MAXBITS);
    while lg <= MAXBITS
      invariant 0 <= lg <= MAXBITS + 1 && ttlg == Pow2(lg) && 1 <= i <= |a| + 1 && ause == |ArrayKeys(a[..i - 1])|
      invariant i - 1 == if Half(lg) < |a| then Half(lg) else |a|
      invariant Counted(old(nums[..]), nums[..], ArrayKeys(a), lg)
    {
      var lim := ttlg;
      if lim > |a| {
        lim := |a|;
        if i > lim {
          break;
        }
      }
      var lc;
      lc, i := UseSlice(a, nums, lg, i, lim, old(nums[..]));
      ause := ause + lc;
      HalfNext(lg);
      lg, ttlg := lg + 1, ttlg * 2;
    }
    assert a[..|a|] == a;
    CountedRest(old(nums[..]), nums[..], a, lg);
  }

  /** One slice of numusearray. */
  method UseSlice(a: seq<TValue>, nums: array<int>, lg: nat, from: nat, lim: nat, ghost first: seq<int>)
      returns (lc: int, i: nat)
    requires nums.Length == MAXBITS + 1 && lg <= MAXBITS && Counted(first, nums[..], ArrayKeys(a), lg)
    requires lim == (if Pow2(lg) > |a| then |a| else Pow2(lg)) && from >= 1
      && from - 1 == if Half(lg) < |a| then Half(lg) else |a|
    modifies nums
    ensures i == lim + 1 && |ArrayKeys(a[..lim])| == |ArrayKeys(a[..from - 1])| + lc
      && Counted(first, nums[..], ArrayKeys(a), lg + 1)
  {
    hide CountIn, ArrayKeys, Counted;
    HalfNext(lg);
    lc, i := CountSome(a, from, lim, Half(lg), Pow2(lg));
    ArrayPrefix(a, i - 1, Half(lg), Pow2(lg));
    ghost var before := nums[..];
    nums[lg] := nums[lg] + lc;
    assert nums[..] == before[lg := before[lg] + lc];
    CountedNext(first, before, nums[..], ArrayKeys(a), lg);
  }

  lemma HalfNone(a: seq<TValue>)
    ensures Half(0) == 0 && Pow2(0) == 1 && ArrayKeys(a[..0]) == []
  {
  }

  lemma HalfNext(i: nat)
    ensures Half(i + 1) == Pow2(i) && Pow2(i + 1) == 2 * Pow2(i) && Half(i) <= Pow2(i)
  {
  }

  lemma CountedNone(nums: seq<int>, ks: seq<TValue>)
    requires |nums| == MAXBITS + 1
    ensures Counted(nums, nums, ks, 0)
  {
  }

  lemma CountedNext(nums0: seq<int>, nums: seq<int>, nums': seq<int>, ks: seq<TValue>, lg: int)
    requires 0 <= lg <= MAXBITS && Counted(nums0, nums, ks, lg)
      && nums' == nums[lg := nums[lg] + CountIn(ks, Half(lg), Pow2(lg))]
    ensures Counted(nums0, nums', ks, lg + 1)
  {
  }

  lemma CountedRest(nums0: seq<int>, nums: seq<int>, a: seq<TValue>, lg: int)
    requires 0 <= lg <= MAXBITS + 1 && Counted(nums0, nums, ArrayKeys(a), lg) && (lg <= MAXBITS ==> |a| <= Half(lg))
    ensures Counted(nums0, nums, ArrayKeys(a), MAXBITS + 1)
  {
    hide Pow2, CountIn, ArrayKeys, Counted;
    forall i | lg <= i <= MAXBITS ensures CountIn(ArrayKeys(a), Half(i), Pow2(i)) == 0 {
      if i > lg {
        if lg > 0 { Pow2Mono(lg - 1, i - 1); }
      }
      assert |a| <= Half(i);
      assert a[..|a|] == a;
      ArrayBelow(a, |a|, Half(i), Pow2(i));
    }
    CountedEnough(nums0, nums, ArrayKeys(a), lg);
  }

  lemma CountedEnough(nums0: seq<int>, nums: seq<int>, ks: seq<TValue>, lg: int)
    requires Counted(nums0, nums, ks, lg) && forall i :: lg <= i <= MAXBITS && 0 <= i ==>
      CountIn(ks, Half(i), Pow2(i)) == 0
    ensures Counted(nums0, nums, ks, MAXBITS + 1)
  {
    hide Pow2, CountIn, Half;
  }

  /** The inner loop of numusearray. */
  method CountSome(a: seq<TValue>, from: nat, lim: nat, ghost lo: nat, ghost hi: nat) returns (lc: int, i: nat)
    requires 1 <= from && from - 1 <= lim <= |a| && lim <= hi && (lo == from - 1 || from - 1 == lim) && from - 1 <= lo
    ensures i == lim + 1 && lc == CountIn(ArrayKeys(a[..lim]), lo, hi)
      && |ArrayKeys(a[..lim])| == |ArrayKeys(a[..from - 1])| + lc
  {
    hide *;
    lc, i := 0, from;
    ArrayBelow(a, from - 1, lo, hi);
    while i <= lim
      invariant from <= i <= lim + 1 && lc == CountIn(ArrayKeys(a[..i - 1]), lo, hi)
      invariant |ArrayKeys(a[..i - 1])| == |ArrayKeys(a[..from - 1])| + lc
    {
      ArrayNext(a, i - 1, lo, hi);
      if a[i - 1] != Nil {
        lc := lc + 1;
      }
      i := i + 1;
    }
  }

  /** countint */
  method CountInt(key: TValue, nums: array<int>) returns (n: int)
    requires nums.Length == MAXBITS + 1
    modifies nums
    ensures n == (if InRange(key, 0, Pow2(MAXBITS)) then 1 else 0)
      && Counted(old(nums[..]), nums[..], [key], MAXBITS + 1)
  {
    hide Counted, Pow2, Half;
    if key.Num? && 0 < key.n <= Pow2(MAXBITS) {
      var l := CeilLog2(key.n);
      SliceOf(key.n, l);
      nums[l] := nums[l] + 1;
      n := 1;
    } else {
      n := 0;
    }
    CountedOne(old(nums[..]), nums[..], key);
  }

  /** Each index is in one slice. */
  lemma SliceOf(k: int, l: nat)
    requires Half(l) < k <= Pow2(l) && k <= Pow2(MAXBITS)
    ensures l <= MAXBITS && forall i :: 0 <= i <= MAXBITS && i != l ==> !(Half(i) < k <= Pow2(i))
  {
    hide Pow2;
    if l > MAXBITS { Pow2Mono(MAXBITS, l - 1); }
    forall i | 0 <= i <= MAXBITS && i != l ensures !(Half(i) < k <= Pow2(i)) {
      if i < l { Pow2Mono(i, l - 1); } else { Pow2Mono(l, i - 1); }
    }
  }

  lemma CountedOne(nums0: seq<int>, nums: seq<int>, key: TValue)
    requires |nums| == |nums0| == MAXBITS + 1
    requires if InRange(key, 0, Pow2(MAXBITS))
      then exists l :: 0 <= l <= MAXBITS && Half(l) < key.n <= Pow2(l) && nums == nums0[l :=
      nums0[l] + 1] else nums == nums0
    ensures Counted(nums0, nums, [key], MAXBITS + 1)
  {
    forall i | 0 <= i <= MAXBITS ensures nums[i] == nums0[i] + CountIn([key], Half(i), Pow2(i)) {
      assert [key][..0] == [];
      assert CountIn([key], Half(i), Pow2(i)) == if InRange(key, Half(i), Pow2(i)) then 1 else 0;
      Pow2Mono(i, MAXBITS);
      if InRange(key, 0, Pow2(MAXBITS)) {
        var l :| 0 <= l <= MAXBITS && Half(l) < key.n <= Pow2(l) && nums == nums0[l := nums0[l] + 1];
        SliceOf(key.n, l);
      }
    }
  }

  /** numusehash: the number of keys, and of integer keys among them. */
  method NumUseHash(ns: seq<Node>, nums: array<int>) returns (totaluse: int, ause: int)
    requires nums.Length == MAXBITS + 1
    modifies nums
    ensures totaluse == |HashKeys(ns)| && ause == CountIn(HashKeys(ns), 0, Pow2(MAXBITS))
    ensures Counted(old(nums[..]), nums[..], HashKeys(ns), MAXBITS + 1)
  {
    totaluse, ause := 0, 0;
    var i := |ns|;
    while i > 0
      invariant 0 <= i <= |ns| && totaluse == |HashKeys(ns[i..])|
        && ause == CountIn(HashKeys(ns[i..]), 0, Pow2(MAXBITS))
      invariant Counted(old(nums[..]), nums[..], HashKeys(ns[i..]), MAXBITS + 1)
    {
      i := i - 1;
      HashNext(ns, i);
      if ns[i].val != Nil {
        ghost var before := nums[..];
        var n := CountInt(ns[i].key, nums);
        CountedJoin(old(nums[..]), before, nums[..], HashKeys(ns[i + 1..]), [ns[i].key]);
        CountConcat(HashKeys(ns[i + 1..]), [ns[i].key], 0, Pow2(MAXBITS));
        CountSingle(ns[i].key, 0, Pow2(MAXBITS));
        ause := ause + n;
        totaluse := totaluse + 1;
      }
    }
    assert ns[0..] == ns;
  }

  lemma CountSingle(key: TValue, lo: int, hi: int)
    ensures CountIn([key], lo, hi) == if InRange(key, lo, hi) then 1 else 0
  {
    assert [key][..0] == [];
  }

  lemma HashNext(ns: seq<Node>, i: nat)
    requires i < |ns|
    ensures HashKeys(ns[i..]) == if ns[i].val != Nil then HashKeys(ns[i + 1..]) + [ns[i].key] else HashKeys(ns[i + 1..])
  {
    assert ns[i..][1..] == ns[i + 1..] && ns[i..][0] == ns[i];
  }

  lemma CountedJoin(nums0: seq<int>, nums: seq<int>, nums': seq<int>, ks: seq<TValue>, ls: seq<TValue>)
    requires Counted(nums0, nums, ks, MAXBITS + 1) && Counted(nums, nums', ls, MAXBITS + 1)
    ensures Counted(nums0, nums', ks + ls, MAXBITS + 1)
  {
    forall i | 0 <= i <= MAXBITS ensures nums'[i] == nums0[i] + CountIn(ks + ls, Half(i), Pow2(i)) {
      CountConcat(ks, ls, Half(i), Pow2(i));
    }
  }
}
