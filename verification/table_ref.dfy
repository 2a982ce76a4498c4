/** References into a table (luaL_ref, luaL_unref): freed references form a list inside the
    table itself, starting at index 0. */
module TableRef {
  import opened Shared
  import opened TableChain
  import opened TableSizes
  import opened TableState
  import opened TableCore
  import opened TableLen

  const FREELIST_REF := 0
  const REFNIL := -1

  /** What links a freed reference to the next one; the last has nothing, not even a mark. */
  function Link(free: seq<int>, i: nat): TValue { if i < |free| then Num(free[i]) else Nil }

  function Look(m: map<TValue, TValue>, k: TValue): TValue { if k in m then m[k] else Nil }

  ghost predicate LinkedAt(m: map<TValue, TValue>, free: seq<int>, i: int)
    requires 0 <= i < |free|
  {
    free[i] > 0 && Look(m, Num(free[i])) == Link(free, i + 1)
  }

  ghost predicate FreeList(m: map<TValue, TValue>, free: seq<int>) {
    && Look(m, Num(FREELIST_REF)) == Link(free, 0)
    && (forall i :: 0 <= i < |free| ==> LinkedAt(m, free, i))
    && (forall i, j :: 0 <= i < j < |free| ==> free[i] != free[j])
  }

  /** The references in use have their values, and are not in the list of free ones. */
  ghost predicate InUse(m: map<TValue, TValue>, live: map<int, TValue>, free: seq<int>) {
    forall r :: r in live ==> r > 0 && r !in free && live[r] != Nil && Look(m, Num(r)) == live[r]
  }

  /** The table t is used for the references in live; those in free were given back. */
  ghost predicate Registry(m: map<TValue, TValue>, live: map<int, TValue>, free: seq<int>) {
    FreeList(m, free) && InUse(m, live, free) && forall k :: k in m ==> m[k] != Nil
  }

  /** The reference that was given back last, the next to be handed out, is at index 0. */
  lemma FirstFree(m: map<TValue, TValue>, live: map<int, TValue>, free: seq<int>)
    requires Registry(m, live, free)
    ensures (if Num(0) in m then m[Num(0)] else Nil) == if free != [] then Num(free[0]) else Nil
  {
  }

  /** A new table has no references in use. */
  lemma NewRegistry()
    ensures Registry(map[], map[], [])
  {
  }

  /** luaL_ref: a reference that was not in use, or REFNIL for nil. */
  method Ref(t: Table, v: TValue, ghost live: map<int, TValue>, ghost free: seq<int>)
    returns (ref: int, st: Status, ghost live': map<int, TValue>, ghost free': seq<int>)
    requires t.Valid() && Registry(t.contents, live, free)
    modifies t
    ensures t.Valid() && Registry(t.contents, live', free')
    ensures v == Nil ==> ref == -1 && st == Ok && live' == live && free' == free
    ensures v != Nil && st == Ok ==> ref > 0 && ref !in live && live' == live[ref := v]
    ensures v != Nil && free != [] ==> ref == free[0] && free' == free[1..]
    ensures st == Ok || (st == Overflow && live' == live && |old(t.contents)| >= Pow2(MAXBITS))
  {
    st, live', free' := Ok, live, free;
    if v == Nil {
      return REFNIL, st, live', free';
    }
    hide Pow2, Table.Valid, Registry;
    ref, free' := Take(t, live, free);
    st, live' := Fill(t, ref, v, live, free');
  }

  /** The first half of luaL_ref: a reference that is neither in use nor in the list any more. */
  method Take(t: Table, ghost live: map<int, TValue>, ghost free: seq<int>) returns (ref: int, ghost free': seq<int>)
    requires t.Valid() && Registry(t.contents, live, free)
    modifies t
    ensures t.Valid() && Registry(t.contents, live, free') && |t.contents| <= |old(t.contents)|
    ensures ref > 0 && ref !in free' && ref !in live
    ensures if free != [] then ref == free[0] && free' == free[1..] else free' == []
  {
    hide Pow2, Table.Valid, Registry, Put, Room, Kept, HasEntry, SameKeys, Table.Tb;
    ghost var m := t.contents;
    var first := t.Get(Num(FREELIST_REF));
    TakeOrFresh(m, live, free);
    if first.Num? && first.n != 0 {
      ref := first.n;
      var next := t.Get(Num(ref));
      var st := t.SetValue(Num(FREELIST_REF), next);
      PutSize(m, Num(FREELIST_REF), next);
      free' := free[1..];
    } else {
      var n := GetN(t);
      ref, free' := n + 1, free;
    }
  }

  /** The reference gets its value. */
  method Fill(t: Table, ref: int, v: TValue, ghost live: map<int, TValue>, ghost free: seq<int>)
      returns (st: Status, ghost live': map<int, TValue>)
    requires t.Valid() && Registry(t.contents, live, free) && ref > 0 && ref !in free && ref !in live && v != Nil
    modifies t
    ensures t.Valid() && Registry(t.contents, live', free) && live' == if st == Ok then live[ref := v] else live
    ensures st == Ok || (st == Overflow && |old(t.contents)| >= Pow2(MAXBITS))
  {
    hide Pow2, Table.Valid, Registry, Put, Room, Kept, HasEntry, SameKeys, Table.Tb;
    UseRef(t.contents, live, free, ref, v);
    st := t.SetValue(Num(ref), v);
    live' := if st == Ok then live[ref := v] else live;
  }

  /** luaL_unref */
  method Unref(t: Table, ref: int, ghost live: map<int, TValue>, ghost free: seq<int>)
    returns (st: Status, ghost live': map<int, TValue>, ghost free': seq<int>)
    requires t.Valid() && Registry(t.contents, live, free) && (ref >= 0 ==> ref in live)
    modifies t
    ensures t.Valid() && Registry(t.contents, live', free')
    ensures live' == if ref >= 0 then live - {ref} else live
    ensures free' == if ref >= 0 && st == Ok then [ref] + free else free
    ensures st == Ok || (st == Overflow && |old(t.contents)| >= Pow2(MAXBITS))
  {
    st, live', free' := Ok, live, free;
    if ref >= 0 {
      hide Pow2, Shape, Holds, Registry, Put, Room, Kept, HasEntry;
      ghost var m := t.contents;
      var first := t.Get(Num(FREELIST_REF));
      InUseHas(m, live, free, ref);
      st := t.SetValue(Num(ref), first);
      PutSize(m, Num(ref), first);
      st := t.SetValue(Num(FREELIST_REF), Num(ref));
      live' := live - {ref};
      if st == Ok {
        FreeRef(m, live, free, ref, first);
        free' := [ref] + free;
      } else {
        LoseRef(m, live, free, ref, first);
      }
    }
  }

  lemma InUseHas(m: map<TValue, TValue>, live: map<int, TValue>, free: seq<int>, ref: int)
    requires Registry(m, live, free) && ref in live
    ensures Num(ref) in m && ref > 0
  {
  }

  /** With the list of free references empty and no room to begin it, a reference that is given
      up is in use no longer, but lost. */
  lemma LoseRef(m: map<TValue, TValue>, live: map<int, TValue>, free: seq<int>, ref: int, first: TValue)
    requires Registry(m, live, free) && ref in live && first == Look(m, Num(0))
      && Num(0) !in Put(m, Num(ref), first)
    ensures Registry(Put(m, Num(ref), first), live - {ref}, free)
  {
    assert first == Nil && free == [];
  }

  lemma PutSize(m: map<TValue, TValue>, k: TValue, v: TValue)
    ensures |Put(m, k, v)| <= |m| + 1 && (k in m ==> |Put(m, k, v)| <= |m|)
  {
    if v == Nil {
      assert (m - {k}).Keys <= m.Keys;
      Smaller((m - {k}).Keys, m.Keys);
    } else {
      assert m[k := v].Keys == m.Keys + {k};
    }
  }

  lemma Smaller(a: set<TValue>, b: set<TValue>)
    requires a <= b
    ensures |a| <= |b|
  {
    assert b == a + (b - a);
  }

  /** Where the next reference comes from: off the list of free ones or, there being none, from
      an index without a value. */
  lemma TakeOrFresh(m: map<TValue, TValue>, live: map<int, TValue>, free: seq<int>)
    requires Registry(m, live, free)
    ensures var first := Look(m, Num(FREELIST_REF));
      if first.Num? && first.n != 0 then
        && free != [] && first.n == free[0] > 0 && free[0] !in live && free[0] !in free[1..]
        && Registry(Put(m, Num(0), Look(m, first)), live, free[1..])
      else free == [] && forall r :: r in live ==> Num(r) in m
  {
    if free != [] {
      var m1 := Put(m, Num(0), Look(m, Num(free[0])));
      PutLook(m, Num(0), Look(m, Num(free[0])));
      hide Put;
      assert LinkedAt(m, free, 0);
      forall i | 0 <= i < |free[1..]| ensures LinkedAt(m1, free[1..], i) {
        assert LinkedAt(m, free, i + 1) && free[1..][i] == free[i + 1];
      }
      assert FreeList(m1, free[1..]);
      hide FreeList;
      assert forall r :: r in free[1..] ==> r in free;
      assert free[0] in free;
    }
  }

  lemma UseRef(m: map<TValue, TValue>, live: map<int, TValue>, free: seq<int>, ref: int, v: TValue)
    requires Registry(m, live, free) && ref > 0 && ref !in free && ref !in live && v != Nil
    ensures Registry(Put(m, Num(ref), v), live[ref := v], free)
  {
    PutLook(m, Num(ref), v);
    hide Put, Look;
    forall i | 0 <= i < |free| ensures LinkedAt(Put(m, Num(ref), v), free, i) {
      assert LinkedAt(m, free, i) && free[i] in free;
    }
  }

  lemma PutLook(m: map<TValue, TValue>, k: TValue, v: TValue)
    ensures forall j :: Look(Put(m, k, v), j) == if j == k then v else Look(m, j)
    ensures (forall j :: j in m ==> m[j] != Nil) ==> forall j :: j in Put(m, k, v) ==> Put(m, k, v)[j] != Nil
  {
  }

  lemma FreeRef(m: map<TValue, TValue>, live: map<int, TValue>, free: seq<int>, ref: int, first: TValue)
    requires Registry(m, live, free) && ref in live && first == Look(m, Num(0))
    ensures Registry(Put(Put(m, Num(ref), first), Num(0), Num(ref)), live - {ref}, [ref] + free)
  {
    var m1 := Put(m, Num(ref), first);
    var m', free' := Put(m1, Num(0), Num(ref)), [ref] + free;
    PutLook(m, Num(ref), first);
    PutLook(m1, Num(0), Num(ref));
    hide Put, Look;
    FreedInUse(m, m', live, free, ref);
    FreedList(m, m', live, free, ref, first);
  }

  lemma FreedInUse(m: map<TValue, TValue>, m': map<TValue, TValue>, live: map<int, TValue>, free: seq<int>, ref: int)
    requires InUse(m, live, free) && ref in live && forall k :: k != Num(0) && k != Num(ref) ==>
      Look(m', k) == Look(m, k)
    ensures InUse(m', live - {ref}, [ref] + free)
  {
    hide Look;
  }

  lemma FreedList(m: map<TValue, TValue>, m': map<TValue, TValue>, live: map<int, TValue>, free: seq<int>, ref: int,
      first: TValue)
    requires FreeList(m, free) && InUse(m, live, free) && ref in live && first == Look(m, Num(0))
    requires (forall k :: k != Num(0) && k != Num(ref) ==> Look(m', k) == Look(m, k)) && Look(m', Num(0)) == Num(ref)
      && Look(m', Num(ref)) == first
    ensures FreeList(m', [ref] + free)
  {
    var free' := [ref] + free;
    assert ref > 0 && ref !in free;
    hide InUse, Look;
    forall i | 0 <= i < |free'| ensures LinkedAt(m', free', i) {
      if i > 0 {
        assert LinkedAt(m, free, i - 1) && free'[i] == free[i - 1] && free[i - 1] in free;
      }
    }
    forall i, j | 0 <= i < j < |free'| ensures free'[i] != free'[j] {
      assert free'[j] == free[j - 1] && free[j - 1] in free;
    }
  }
}
