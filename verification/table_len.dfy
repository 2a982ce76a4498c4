/** The length of a table (luaH_getn). */
module TableLen {
  import opened Shared
  import opened TableChain
  import opened TableSizes
  import opened TableState
  import opened TableCount
  import opened TableCore

  /** Section 2.5.5 of the Lua 5.1 manual: an index with a value, or 0, before one without. */
  predicate Boundary(m: map<TValue, TValue>, n: int) { n >= 0 && (n == 0 || Num(n) in m) && Num(n + 1) !in m }

  /** A run of indices from 1 on is no longer than the table is large. */
  lemma {:induction false} RunFits(m: map<TValue, TValue>, n: nat)
    requires forall i :: 1 <= i <= n ==> Num(i) in m
    ensures n <= |m|
    decreases n
  {
    if n > 0 {
      var m' := m - {Num(n)};
      assert m'.Keys == m.Keys - {Num(n)};
      RunFits(m', n - 1);
    }
  }

  /** unbound_search: j is 0 or an index with a value. */
  method UnboundSearch(t: Table, j0: nat) returns (n: nat)
    requires t.Valid() && (j0 == 0 || Num(j0) in t.contents) && j0 < MAX_INT
    ensures Boundary(t.contents, n)
  {
    hide Shape, Holds;
    var i, j := j0, j0 + 1;
    var v := t.Get(Num(j));
    NoNils(t.h, t.Tb(), t.links, t.contents);
    while v != Nil
      invariant (i == 0 || Num(i) in t.contents) && 0 <= i < j <= MAX_INT && (v != Nil <==> Num(j) in t.contents)
      decreases MAX_INT - j
    {
      i := j;
      j := j * 2;
      if j > MAX_INT {
        n := LinearSearch(t);
        return;
      }
      v := t.Get(Num(j));
    }
    while j - i > 1
      invariant (i == 0 || Num(i) in t.contents) && 0 <= i < j && Num(j) !in t.contents
      decreases j - i
    {
      var m := (i + j) / 2;
      v := t.Get(Num(m));
      if v == Nil {
        j := m;
      } else {
        i := m;
      }
    }
    n := i;
  }

  method LinearSearch(t: Table) returns (n: nat)
    requires t.Valid()
    ensures Boundary(t.contents, n)
  {
    hide Shape, Holds;
    NoNils(t.h, t.Tb(), t.links, t.contents);
    var i := 1;
    var v := t.Get(Num(i));
    while v != Nil
      invariant 1 <= i && (forall k :: 1 <= k < i ==> Num(k) in t.contents) && (v != Nil <==> Num(i) in t.contents)
      decreases |t.contents| + 1 - i
    {
      RunFits(t.contents, i);
      i := i + 1;
      v := t.Get(Num(i));
    }
    n := i - 1;
  }

  lemma NoNils(h: Hash, t: Tab, l: Links, m: map<TValue, TValue>)
    requires Shape(h, t, l) && Holds(t, m)
    ensures forall k :: k in m ==> m[k] != Nil
  {
    hide Value;
  }

  lemma ArrayEntries(h: Hash, t: Tab, l: Links, m: map<TValue, TValue>)
    requires Shape(h, t, l) && Holds(t, m)
    ensures forall i :: 1 <= i <= |t.arr| ==> (Num(i) in m <==> t.arr[i - 1] != Nil)
    ensures t.dummy ==> Num(|t.arr| + 1) !in m
    ensures |t.arr| <= Pow2(MAXBITS)
  {
    hide Chains, PowerSized;
    forall i | 1 <= i <= |t.arr| ensures Num(i) in m <==> t.arr[i - 1] != Nil {
      assert Value(t, Num(i)) == t.arr[i - 1];
    }
    if t.dummy {
      assert Value(t, Num(|t.arr| + 1)) == Nil;
    }
  }

  lemma SmallPower()
    ensures Pow2(MAXBITS) < MAX_INT
  {
    assert Pow2(13) == 8192;
    Pow2Add(13, 13);
  }

  /** luaH_getn */
  method GetN(t: Table) returns (n: nat)
    requires t.Valid()
    ensures Boundary(t.contents, n)
  {
    hide Shape, Holds, Pow2;
    ArrayEntries(t.h, t.Tb(), t.links, t.contents);
    var j := |t.arr|;
    if j > 0 && t.arr[j - 1] == Nil {
      n := BinarySearch(t.arr);
    } else if t.dummy {
      n := j;
    } else {
      SmallPower();
      n := UnboundSearch(t, j);
    }
  }

  /** There is a boundary in the array part. */
  method BinarySearch(arr: seq<TValue>) returns (n: nat)
    requires |arr| > 0 && arr[|arr| - 1] == Nil
    ensures n < |arr| && arr[n] == Nil && (n == 0 || arr[n - 1] != Nil)
  {
    var i, j := 0, |arr|;
    while j - i > 1
      invariant 0 <= i < j <= |arr| && (i == 0 || arr[i - 1] != Nil) && arr[j - 1] == Nil
      decreases j - i
    {
      var m := (i + j) / 2;
      if arr[m - 1] == Nil {
        j := m;
      } else {
        i := m;
      }
    }
    n := i;
  }
}
