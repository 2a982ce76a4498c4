/** Traversal (luaH_next): every entry that keeps a value is met exactly once, whatever is
    overwritten on the way. */
module TableNext {
  import opened Shared
  import opened TableChain
  import opened TableSizes
  import opened TableState
  import opened TableCount
  import opened TableCore

  /** Places of a table in the order of a traversal: the array part, then the nodes. */
  function Places(t: Tab): nat { |t.arr| + |t.ns| }

  function KeyAt(t: Tab, p: int): TValue
    requires 0 <= p < Places(t)
  {
    if p < |t.arr| then Num(p + 1) else t.ns[p - |t.arr|].key
  }

  function ValAt(t: Tab, p: int): TValue
    requires 0 <= p < Places(t)
  {
    if p < |t.arr| then t.arr[p] else t.ns[p - |t.arr|].val
  }

  /** The first place after p with a value, or the number of places. */
  function NextPlace(t: Tab, p: int): (q: int)
    requires -1 <= p < Places(t)
    ensures p < q <= Places(t) && (q < Places(t) ==> ValAt(t, q) != Nil)
    ensures forall i :: p < i < q ==> ValAt(t, i) == Nil
    decreases Places(t) - p
  {
    if p + 1 == Places(t) || ValAt(t, p + 1) != Nil then p + 1 else NextPlace(t, p + 1)
  }

  ghost predicate Uniform(ts: seq<Tab>, n: int) { forall i :: 0 <= i < |ts| ==> Places(ts[i]) == n }

  /** The places met by a traversal, the i-th call seeing table ts[i]; all have n places. */
  ghost function Visits(ts: seq<Tab>, n: int, p: int): seq<int>
    requires Uniform(ts, n) && -1 <= p < n
    decreases |ts|
  {
    if ts == [] then [] else
    var q := NextPlace(ts[0], p);
    if q == n then [] else [q] + Visits(ts[1..], n, q)
  }

  /** The place has a value in all the tables. */
  ghost predicate Stays(ts: seq<Tab>, n: int, p: int)
    requires Uniform(ts, n) && 0 <= p < n
  {
    forall i :: 0 <= i < |ts| ==> ValAt(ts[i], p) != Nil
  }

  /** A traversal goes up, so meets no place twice. */
  lemma {:induction false} VisitsUp(ts: seq<Tab>, n: int, p: int)
    requires Uniform(ts, n) && -1 <= p < n
    ensures |Visits(ts, n, p)| <= |ts| && forall i :: 0 <= i < |Visits(ts, n, p)| ==> p < Visits(ts, n, p)[i] < n
    ensures forall i, j :: 0 <= i < j < |Visits(ts, n, p)| ==> Visits(ts, n, p)[i] < Visits(ts, n, p)[j]
    decreases |ts|
  {
    if ts != [] {
      var q := NextPlace(ts[0], p);
      if q < n {
        VisitsUp(ts[1..], n, q);
      }
    }
  }

  /** A traversal that has come to its end has met every place that kept its value. */
  lemma {:induction false} VisitsComplete(ts: seq<Tab>, n: int, p: int, x: int)
    requires Uniform(ts, n) && -1 <= p < x < n && |Visits(ts, n, p)| < |ts| && Stays(ts, n, x)
    ensures x in Visits(ts, n, p)
    decreases |ts|
  {
    var q := NextPlace(ts[0], p);
    assert q <= x;
    if q < x {
      VisitsComplete(ts[1..], n, q, x);
    }
  }

  /** It comes to its end after at most one call more than there are places. */
  lemma {:induction false} VisitsEnd(ts: seq<Tab>, n: int, p: int)
    requires Uniform(ts, n) && -1 <= p < n && |ts| >= n - p
    ensures |Visits(ts, n, p)| < |ts|
    decreases |ts|
  {
    var q := NextPlace(ts[0], p);
    if q < n {
      VisitsEnd(ts[1..], n, q);
    }
  }

  // --------------------------------------------------------------- the methods

  /** Of all nodes with this key, dead or not, this one comes first in the chain. */
  ghost predicate FirstOf(ns: seq<Node>, l: Links, i: int) {
    && |l.root| == |l.rank| == |ns| && Used(ns, i)
    && forall j :: Used(ns, j) && ns[j].key == ns[i].key && j != i ==> Together(l, i, j) && l.rank[i] < l.rank[j]
  }

  /** The place of a key, -1 for the start. */
  ghost predicate PlaceOf(t: Tab, l: Links, key: TValue, p: int) {
    if key == Nil then p == -1
    else 0 <= p < Places(t) && KeyAt(t, p) == key && (p >= |t.arr| ==> FirstOf(t.ns, l, p - |t.arr|))
  }

  /** The key can be passed to next: it has a place, though it may be dead. */
  ghost predicate CanFind(t: Tab, key: TValue) {
    InRange(key, 0, |t.arr|) || exists i :: Used(t.ns, i) && t.ns[i].key == key
  }

  /** All nodes with the key are at n or further on. */
  ghost predicate Ahead(ns: seq<Node>, l: Links, n: int, key: TValue) {
    && |l.root| == |l.rank| == |ns| && 0 <= n < |ns|
    && forall j :: Used(ns, j) && ns[j].key == key ==> Used(ns, n) && Together(l, n, j) && l.rank[n] <= l.rank[j]
  }

  ghost predicate Nowhere(ns: seq<Node>, key: TValue) { forall j :: Used(ns, j) ==> ns[j].key != key }

  lemma AheadStart(h: Hash, ns: seq<Node>, l: Links, key: TValue)
    requires Chains(h, ns, l) && |ns| > 0 && |l.root| == |l.rank| == |ns|
    ensures Ahead(ns, l, Mp(h, key, |ns|), key)
  {
    hide Linked, Distinct, DeadBehind;
    forall j | Used(ns, j) && ns[j].key == key ensures var n := Mp(h, key, |ns|);
        Used(ns, n) && Together(l, n, j) && l.rank[n] <= l.rank[j] {
      assert HomedAt(h, ns, l, j);
    }
  }

  lemma AheadNext(ns: seq<Node>, l: Links, n: int, key: TValue)
    requires Linked(ns, l) && Ahead(ns, l, n, key) && ns[n].key != key
    ensures if ns[n].next == NULL then Nowhere(ns, key)
      else 0 <= ns[n].next < |ns| && Ahead(ns, l, ns[n].next, key) && RankLeft(ns, l, ns[n].next) < RankLeft(ns, l, n)
  {
    if Used(ns, n) {
      assert NextAt(ns, l, n);
      if ns[n].next != NULL {
        forall j | Used(ns, j) && ns[j].key == key
            ensures Together(l, ns[n].next, j) && l.rank[ns[n].next] <= l.rank[j] {
          assert Together(l, n, j) && l.rank[n] < l.rank[j];
        }
      }
    }
  }

  lemma AheadFound(ns: seq<Node>, l: Links, n: int, key: TValue)
    requires Linked(ns, l) && Ahead(ns, l, n, key) && ns[n].key == key != Nil
    ensures FirstOf(ns, l, n)
  {
  }

  // --------------------------------------------------------------- the methods

  /** findindex: the key may be dead already. ok is false for a key that is not in the table. */
  method FindIndex(t: Table, key: TValue) returns (p: int, ok: bool)
    requires t.Valid()
    ensures ok <==> key == Nil || CanFind(t.Tb(), key)
    ensures ok ==> PlaceOf(t.Tb(), t.links, key, p)
  {
    hide Shape, Holds, CanFind, PlaceOf, FirstOf;
    EasyPlace(t.Tb(), t.links, key);
    if key == Nil {
      return -1, true;
    }
    if key.Num? && 0 < key.n <= |t.arr| {
      return key.n - 1, true;
    }
    var n := FindInChain(t, key);
    FoundInChain(t.Tb(), t.links, key, n);
    return if n == NULL then -1 else n + |t.arr|, n != NULL;
  }

  lemma EasyPlace(t: Tab, l: Links, key: TValue)
    ensures key == Nil ==> PlaceOf(t, l, key, -1)
    ensures key.Num? && 0 < key.n <= |t.arr| ==> CanFind(t, key) && PlaceOf(t, l, key, key.n - 1)
  {
  }

  /** The loop of findindex. */
  method FindInChain(t: Table, key: TValue) returns (n: int)
    requires Shape(t.h, t.Tb(), t.links) && key != Nil
    ensures if n == NULL then Nowhere(t.node, key)
      else 0 <= n < |t.node| && FirstOf(t.node, t.links, n) && t.node[n].key == key
  {
    hide Shape, Chains, Linked, Distinct, Nowhere, Ahead, RankLeft, FirstOf, Mp;
    ShapeParts(t.h, t.Tb(), t.links);
    DistinctChains(t.h, t.node, t.links);
    AheadStart(t.h, t.node, t.links, key);
    n := Mp(t.h, key, |t.node|);
    AheadWithin(t.node, t.links, n, key);
    while n != NULL
      invariant if n == NULL then Nowhere(t.node, key) else 0 <= n < |t.node| && Ahead(t.node, t.links, n, key)
      decreases if n == NULL then -1 else RankLeft(t.node, t.links, n)
    {
      if t.node[n].key == key {
        AheadFound(t.node, t.links, n, key);
        return;
      }
      AheadNext(t.node, t.links, n, key);
      NonNegative(t.node, t.links, n);
      n := t.node[n].next;
    }
  }

  lemma AheadWithin(ns: seq<Node>, l: Links, n: int, key: TValue)
    requires Ahead(ns, l, n, key)
    ensures 0 <= n < |ns|
  {
  }

  lemma FoundInChain(t: Tab, l: Links, key: TValue, n: int)
    requires key != Nil && !InRange(key, 0, |t.arr|)
    requires if n == NULL then Nowhere(t.ns, key) else 0 <= n < |t.ns| && FirstOf(t.ns, l, n) && t.ns[n].key == key
    ensures CanFind(t, key) <==> n != NULL
    ensures n != NULL ==> PlaceOf(t, l, key, n + |t.arr|)
  {
  }

  lemma NonNegative(ns: seq<Node>, l: Links, n: int)
    requires Linked(ns, l) && 0 <= n < |ns| == |l.rank|
    ensures RankLeft(ns, l, n) >= 0
  {
  }

  /** luaH_next: the key after the given one and its value, or Nil at the end. */
  method Next(t: Table, key: TValue) returns (k: TValue, v: TValue, ok: bool, ghost at: int)
    requires t.Valid()
    ensures ok <==> key == Nil || CanFind(t.Tb(), key)
    ensures ok ==> PlaceOf(t.Tb(), t.links, key, at) && Found(t.Tb(), at, k, v)
  {
    var p;
    p, ok := FindIndex(t, key);
    at := p;
    if !ok {
      return Nil, Nil, false, at;
    }
    hide Shape, Holds, CanFind, FirstOf;
    k, v := Scan(t.arr, t.node, p, t.Tb());
  }

  /** The two loops of luaH_next. */
  method Scan(arr: seq<TValue>, ns: seq<Node>, p: int, ghost t: Tab) returns (k: TValue, v: TValue)
    requires t.arr == arr && t.ns == ns && -1 <= p < Places(t)
    ensures Found(t, p, k, v)
  {
    var i := p + 1;
    while i < |arr|
      invariant p < i <= Places(t) && (i <= |arr| || i == p + 1) && forall j :: p < j < i ==> ValAt(t, j) == Nil
    {
      if arr[i] != Nil {
        NextIs(t, p, i);
        return Num(i + 1), arr[i];
      }
      i := i + 1;
    }
    i := i - |arr|;
    while i < |ns|
      invariant 0 <= i <= |ns| && p < i + |arr| && forall j :: p < j < i + |arr| ==> ValAt(t, j) == Nil
    {
      if ns[i].val != Nil {
        NextIs(t, p, i + |arr|);
        return ns[i].key, ns[i].val;
      }
      i := i + 1;
    }
    NextIs(t, p, Places(t));
    return Nil, Nil;
  }

  /** What comes after place p. */
  ghost predicate Found(t: Tab, p: int, k: TValue, v: TValue) {
    && -1 <= p < Places(t)
    && var q := NextPlace(t, p);
       if q == Places(t) then k == Nil && v == Nil else k == KeyAt(t, q) && v == ValAt(t, q)
  }

  lemma NextIs(t: Tab, p: int, q: int)
    requires -1 <= p < Places(t) && p < q <= Places(t) && (forall i :: p < i < q ==> ValAt(t, i) == Nil)
      && (q < Places(t) ==> ValAt(t, q) != Nil)
    ensures NextPlace(t, p) == q
  {
  }

  // ------------------------------------------------ traversal with assignments

  /** The place of a key is unique. */
  lemma OnePlace(h: Hash, t: Tab, l: Links, key: TValue, p: int, q: int)
    requires Shape(h, t, l) && PlaceOf(t, l, key, p) && PlaceOf(t, l, key, q)
    ensures p == q
  {
    hide PowerSized, Pow2, Chains;
    if key != Nil {
      assert InRange(key, 0, |t.arr|) <==> p < |t.arr|;
      assert InRange(key, 0, |t.arr|) <==> q < |t.arr|;
    }
  }

  lemma PlaceStays(t: Tab, t': Tab, l: Links, key: TValue, p: int)
    requires SameKeys(t, t')
    ensures PlaceOf(t, l, key, p) <==> PlaceOf(t', l, key, p)
    ensures CanFind(t, key) <==> CanFind(t', key)
  {
    assert forall i :: Used(t.ns, i) <==> Used(t'.ns, i);
    assert forall i :: 0 <= i < |t.ns| ==> t'.ns[i].key == t.ns[i].key;
  }

  /** What may happen to a table between two calls of next: values, nil among them, are given to
      keys that are in the table, and the collector comes by. */
  datatype Change = Assign(key: TValue, val: TValue) | Collect(which: set<int>)

  method Overwrite(t: Table, changes: seq<Change>)
    requires t.Valid()
    modifies t
    ensures t.Valid() && SameKeys(old(t.Tb()), t.Tb()) && t.links == old(t.links)
  {
    hide Shape, Holds, HasEntry, SameKeys;
    SameKeysRefl(t.Tb());
    for i := 0 to |changes|
      invariant t.Valid() && SameKeys(old(t.Tb()), t.Tb()) && t.links == old(t.links)
    {
      ghost var tb := t.Tb();
      match changes[i]
      case Assign(key, val) =>
        var s := t.GetSlot(key);
        if s != NoSlot {
          SlotHasEntry(tb, key, s);
          var st := t.SetValue(key, val);
          SameKeysTrans(old(t.Tb()), tb, t.Tb());
        }
      case Collect(which) =>
        t.KillKeys(which);
        SameKeysTrans(old(t.Tb()), tb, t.Tb());
    }
  }

  lemma SlotHasEntry(t: Tab, key: TValue, s: Slot)
    requires SlotOf(t, key, s) && s != NoSlot
    ensures HasEntry(t, key)
  {
  }

  function Before(ps: seq<int>, p0: int, i: int): int
    requires 0 <= i <= |ps|
  {
    if i == 0 then p0 else ps[i - 1]
  }

  /** Each place met is the next one in the table as it was then. */
  ghost predicate StepTo(t: Tab, p: int, q: int) { -1 <= p < Places(t) && q == NextPlace(t, p) }

  ghost predicate StepAt(ts: seq<Tab>, p0: int, ps: seq<int>, i: int)
    requires 0 <= i < |ps| <= |ts|
  {
    StepTo(ts[i], Before(ps, p0, i), ps[i])
  }

  ghost predicate Stepwise(ts: seq<Tab>, n: int, p0: int, ps: seq<int>) {
    && Uniform(ts, n) && |ps| <= |ts| && -1 <= p0 < n
    && (forall i :: 0 <= i < |ps| ==> 0 <= ps[i] < n)
    && (forall i :: 0 <= i < |ps| ==> StepAt(ts, p0, ps, i))
  }

  lemma {:induction false} StepwiseVisits(ts: seq<Tab>, n: int, p0: int, ps: seq<int>)
    requires Stepwise(ts, n, p0, ps) && |ts| == |ps| + 1 && NextPlace(ts[|ps|], Before(ps, p0, |ps|)) == n
    ensures Visits(ts, n, p0) == ps
    decreases |ps|
  {
    if ps != [] {
      assert StepAt(ts, p0, ps, 0);
      hide NextPlace, Places, StepTo;
      forall i | 0 <= i < |ps| - 1 ensures StepAt(ts[1..], ps[0], ps[1..], i) {
        assert StepAt(ts, p0, ps, i + 1);
      }
      StepwiseVisits(ts[1..], n, ps[0], ps[1..]);
    }
  }

  lemma StepwiseMore(ts: seq<Tab>, n: int, ps: seq<int>, t: Tab, q: int)
    requires Stepwise(ts, n, -1, ps) && |ts| == |ps| && Places(t) == n && StepTo(t, Before(ps, -1, |ps|), q)
      && 0 <= q < n
    ensures Stepwise(ts + [t], n, -1, ps + [q]) && Before(ps + [q], -1, |ps| + 1) == q
  {
    hide StepTo, Places;
    forall i | 0 <= i < |ps + [q]| ensures StepAt(ts + [t], -1, ps + [q], i) {
      if i < |ps| {
        assert StepAt(ts, -1, ps, i);
      }
    }
  }

  lemma StepwiseLast(ts: seq<Tab>, n: int, ps: seq<int>, t: Tab)
    requires Stepwise(ts, n, -1, ps) && |ts| == |ps| && Places(t) == n && NextPlace(t, Before(ps, -1, |ps|)) == n
    ensures Uniform(ts + [t], n) && Visits(ts + [t], n, -1) == ps
  {
    forall i | 0 <= i < |ps| ensures StepAt(ts + [t], -1, ps, i) {
      assert StepAt(ts, -1, ps, i);
    }
    StepwiseVisits(ts + [t], n, -1, ps);
  }

  /** The keys met, at the places where they were met. */
  ghost predicate KeysAt(t0: Tab, l: Links, ps: seq<int>, keys: seq<TValue>) {
    |ps| == |keys| && forall i :: 0 <= i < |keys| ==> keys[i] != Nil && PlaceOf(t0, l, keys[i], ps[i])
  }

  /** Where the traversal stands. */
  ghost predicate Traversing(t0: Tab, t: Tab, l: Links, ts: seq<Tab>, ps: seq<int>, keys: seq<TValue>, key: TValue) {
    && var n := Places(t0);
       && n > 0 && SameKeys(t0, t) && (forall i :: 0 <= i < |ts| ==> SameKeys(t0, ts[i]))
       && Stepwise(ts, n, -1, ps) && |ts| == |ps|
       && KeysAt(t0, l, ps, keys) && key == (if keys == [] then Nil else keys[|keys| - 1])
  }

  lemma TraversePlace(h: Hash, l: Links, t0: Tab, t: Tab, ts: seq<Tab>, ps: seq<int>, keys: seq<TValue>, key: TValue,
      p: int)
    requires Traversing(t0, t, l, ts, ps, keys, key) && Shape(h, t, l) && PlaceOf(t, l, key, p)
    ensures -1 <= p < Places(t0) == Places(t) && p == Before(ps, -1, |ps|)
  {
    hide Shape, Stepwise, FirstOf;
    if key != Nil {
      PlaceStays(t0, t, l, key, ps[|ps| - 1]);
      OnePlace(h, t, l, key, p, ps[|ps| - 1]);
    }
  }

  lemma TraverseStep(h: Hash, l: Links, t0: Tab, t: Tab, ts: seq<Tab>, ps: seq<int>, keys: seq<TValue>, key: TValue,
      k: TValue, v: TValue, p: int)
    requires Traversing(t0, t, l, ts, ps, keys, key) && Shape(h, t, l) && PlaceOf(t, l, key, p) && Found(t, p, k, v)
    ensures var n := Places(t0);
      if k == Nil then Uniform(ts + [t], n) && Visits(ts + [t], n, -1) == ps
      else exists q :: q == NextPlace(t, p) && p < q < n && Traversing(t0, t, l, ts + [t], ps + [q], keys + [k], k)
    ensures k != Nil ==> CanFind(t, k)
    ensures -1 <= p < Places(t0) && p == Before(ps, -1, |ps|)
  {
    hide Shape, PlaceOf, CanFind;
    var n, q := Places(t0), NextPlace(t, p);
    TraversePlace(h, l, t0, t, ts, ps, keys, key, p);
    if q < n {
      LiveKey(h, t, l, q);
      TraverseMore(t0, t, l, ts, ps, keys, key, q, k);
    } else {
      StepwiseLast(ts, n, ps, t);
    }
  }

  lemma TraverseMore(t0: Tab, t: Tab, l: Links, ts: seq<Tab>, ps: seq<int>, keys: seq<TValue>, key: TValue, q: int,
      k: TValue)
    requires Traversing(t0, t, l, ts, ps, keys, key) && StepTo(t, Before(ps, -1, |ps|), q)
      && 0 <= q < Places(t0) == Places(t) && k != Nil && PlaceOf(t, l, k, q)
    ensures Traversing(t0, t, l, ts + [t], ps + [q], keys + [k], k)
  {
    PlaceStays(t0, t, l, k, q);
    StepwiseMore(ts, Places(t0), ps, t, q);
    hide Stepwise, StepTo, SameKeys, PlaceOf;
  }

  /** A key that has a value is the living one, and the first of its kind. */
  lemma LiveKey(h: Hash, t: Tab, l: Links, q: int)
    requires Shape(h, t, l) && 0 <= q < Places(t) && ValAt(t, q) != Nil
    ensures var k := KeyAt(t, q); k != Nil && PlaceOf(t, l, k, q) && CanFind(t, k)
  {
    hide PowerSized, Pow2, Homed, Linked;
    if q >= |t.arr| {
      var i := q - |t.arr|;
      assert Used(t.ns, i) by { UsedNode(h, t, l, i); }
      LiveFirst(t.ns, l, i);
    }
  }

  lemma LiveFirst(ns: seq<Node>, l: Links, i: int)
    requires Distinct(ns) && DeadBehind(ns, l) && Named(ns, i)
    ensures FirstOf(ns, l, i)
  {
    forall j | Used(ns, j) && ns[j].key == ns[i].key && j != i ensures Together(l, i, j) && l.rank[i] < l.rank[j] {
      assert BehindAt(ns, l, j, i);
    }
  }

  lemma SameKeysTrans(t: Tab, t1: Tab, t2: Tab)
    requires SameKeys(t, t1) && SameKeys(t1, t2)
    ensures SameKeys(t, t2)
  {
  }

  /** A traversal by repeated calls of luaH_next, with assignments to existing keys and visits of
      the collector after each: the tables that the calls saw are ts, the places met ps. No key is
      met twice, and each key that had a value whenever luaH_next looked is met. */
  method Traverse(t: Table, changes: seq<seq<Change>>)
      returns (keys: seq<TValue>, ghost ts: seq<Tab>, ghost ps: seq<int>)
    requires t.Valid()
    modifies t
    ensures t.Valid() && SameKeys(old(t.Tb()), t.Tb())
    ensures var n := Places(old(t.Tb()));
      && n > 0 && (forall i :: 0 <= i < |ts| ==> SameKeys(old(t.Tb()), ts[i])) && Uniform(ts, n)
      && ps == Visits(ts, n, -1) && |ts| == |ps| + 1 && KeysAt(old(t.Tb()), old(t.links), ps, keys)
    ensures Exact(old(t.Tb()), ts, keys)
  {
    ghost var t0, l := t.Tb(), t.links;
    Begin(t.h, t0, l);
    hide Shape, Holds, CanFind, Traversing, SameKeys, Stepwise, PlaceOf, KeysAt, Exact, Found, Visits, Uniform,
      NextPlace;
    keys, ts, ps := [], [], [];
    var key := Nil;
    ghost var p;
    var k, v, ok;
    k, v, ok, p := Next(t, key);
    while k != Nil
      invariant t.Valid() && SameKeys(t0, t.Tb()) && t.links == l && ok
      invariant Traversing(t0, t.Tb(), l, ts, ps, keys, key) && |ts| == |ps| == |keys|
      invariant PlaceOf(t.Tb(), l, key, p) && Found(t.Tb(), p, k, v)
      decreases Places(t0) - Before(ps, -1, |ps|)
    {
      ghost var tb := t.Tb();
      TraverseStep(t.h, l, t0, tb, ts, ps, keys, key, k, v, p);
      ts, ps, keys, key := ts + [tb], ps + [NextPlace(tb, p)], keys + [k], k;
      if |keys| <= |changes| {
        Overwrite(t, changes[|keys| - 1]);
        TraverseKept(t0, tb, t.Tb(), l, ts, ps, keys, key);
      }
      k, v, ok, p := Next(t, key);
    }
    TraverseStep(t.h, l, t0, t.Tb(), ts, ps, keys, key, k, v, p);
    TraverseEnd(t0, t.Tb(), l, ts, ps, keys, key);
    ts := ts + [t.Tb()];
    TraversalExact(t.h, t0, l, ts, ps, keys);
  }

  lemma Begin(h: Hash, t: Tab, l: Links)
    requires Shape(h, t, l)
    ensures SameKeys(t, t) && Traversing(t, t, l, [], [], [], Nil)
  {
  }

  lemma TraverseKept(t0: Tab, t: Tab, t': Tab, l: Links, ts: seq<Tab>, ps: seq<int>, keys: seq<TValue>, key: TValue)
    requires Traversing(t0, t, l, ts, ps, keys, key) && SameKeys(t, t') && CanFind(t, key)
    ensures Traversing(t0, t', l, ts, ps, keys, key) && SameKeys(t0, t') && CanFind(t', key)
  {
    hide KeysAt, Stepwise;
    PlaceStays(t, t', l, key, 0);
    SameKeysTrans(t0, t, t');
  }

  lemma TraverseEnd(t0: Tab, t: Tab, l: Links, ts: seq<Tab>, ps: seq<int>, keys: seq<TValue>, key: TValue)
    requires Traversing(t0, t, l, ts, ps, keys, key)
    ensures Places(t0) > 0 && |keys| == |ps| == |ts| && KeysAt(t0, l, ps, keys)
    ensures forall i :: 0 <= i < |ts + [t]| ==> SameKeys(t0, (ts + [t])[i])
  {
  }

  /** What a traversal promises: no key twice, and all that stay. */
  ghost predicate Exact(t0: Tab, ts: seq<Tab>, keys: seq<TValue>) {
    && |keys| <= Places(t0) && (forall i, j :: 0 <= i < j < |keys| ==> keys[i] != keys[j])
    && Uniform(ts, Places(t0))
    && forall x :: 0 <= x < Places(t0) && Stays(ts, Places(t0), x) ==> KeyAt(t0, x) in keys
  }

  /** The outcome of a traversal: an entry that had a value whenever luaH_next looked is met
      exactly once; no entry is met twice. */
  lemma TraversalExact(h: Hash, t0: Tab, l: Links, ts: seq<Tab>, ps: seq<int>, keys: seq<TValue>)
    requires Shape(h, t0, l) && Places(t0) > 0 && Uniform(ts, Places(t0)) && ps == Visits(ts, Places(t0), -1)
      && |ts| == |ps| + 1
    requires KeysAt(t0, l, ps, keys)
    ensures Exact(t0, ts, keys)
  {
    hide Shape, Stays, FirstOf;
    var n := Places(t0);
    VisitsUp(ts, n, -1);
    forall i, j | 0 <= i < j < |keys| ensures keys[i] != keys[j] {
      if keys[i] == keys[j] { OnePlace(h, t0, l, keys[i], ps[i], ps[j]); }
    }
    forall x | 0 <= x < n && Stays(ts, n, x) ensures KeyAt(t0, x) in keys {
      VisitsComplete(ts, n, -1, x);
      var i :| 0 <= i < |ps| && ps[i] == x;
      assert keys[i] == KeyAt(t0, x);
    }
    VisitsFew(ps, n);
  }

  lemma {:induction false} VisitsFew(ps: seq<int>, n: int)
    requires n >= 0 && (forall i :: 0 <= i < |ps| ==> 0 <= ps[i] < n) && forall i, j :: 0 <= i < j < |ps| ==>
      ps[i] < ps[j]
    ensures |ps| <= n
    decreases n
  {
    if ps != [] {
      VisitsFew(ps[..|ps| - 1], ps[|ps| - 1]);
    }
  }
}
