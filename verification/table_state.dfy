/** Tables as values: an array part, a hash part, and the finite map they stand for. */
module TableState {
  import opened Shared
  import opened TableChain
  import opened TableSizes

  /** dummy: the hash part is the shared empty node. */
  datatype Tab = Tab(arr: seq<TValue>, ns: seq<Node>, dummy: bool, lastfree: int)

  datatype Slot = NoSlot | InArray(i: int) | InNode(i: int)

  datatype Status = Ok | NilIndex | NaNIndex | Overflow

  ghost predicate PowerSized(n: int) { exists b: nat :: b <= MAXBITS && n == Pow2(b) }

  ghost predicate Shape(h: Hash, t: Tab, l: Links) {
    && |t.ns| >= 1 && |t.arr| <= Pow2(MAXBITS) && t.lastfree <= |t.ns| && Chains(h, t.ns, l)
    && (if t.dummy then t.ns == [FREE_NODE] && t.lastfree <= 0
      else PowerSized(|t.ns|) && forall i :: 0 <= i < |t.ns| && t.lastfree <= i ==> Used(t.ns, i))
    && (forall i :: Used(t.ns, i) ==> !InRange(t.ns[i].key, 0, |t.arr|))
  }

  /** What the table holds for a key. */
  ghost function Value(t: Tab, key: TValue): TValue {
    if InRange(key, 0, |t.arr|) then t.arr[key.n - 1] else At(t.ns, key)
  }

  /** The table stands for the map m. */
  ghost predicate Holds(t: Tab, m: map<TValue, TValue>) {
    forall k :: (k in m <==> Value(t, k) != Nil) && (k in m ==> m[k] == Value(t, k))
  }

  ghost function Put(m: map<TValue, TValue>, key: TValue, v: TValue): map<TValue, TValue> {
    if v == Nil then m - {key} else m[key := v]
  }

  ghost predicate SlotOf(t: Tab, key: TValue, s: Slot) {
    match s
    case InArray(i) => InRange(key, 0, |t.arr|) && i == key.n - 1
    case InNode(i) => !InRange(key, 0, |t.arr|) && Named(t.ns, i) && t.ns[i].key == key
    case NoSlot => !InRange(key, 0, |t.arr|) && !HasKey(t.ns, key)
  }

  function Store(t: Tab, s: Slot, v: TValue): Tab {
    match s
    case InArray(i) => if 0 <= i < |t.arr| then t.(arr := t.arr[i := v]) else t
    case InNode(i) => if 0 <= i < |t.ns| then t.(ns := t.ns[i := t.ns[i].(val := v)]) else t
    case NoSlot => t
  }

  lemma StoreOk(h: Hash, t: Tab, l: Links, m: map<TValue, TValue>, key: TValue, s: Slot, v: TValue)
    requires Shape(h, t, l) && Holds(t, m) && SlotOf(t, key, s) && s != NoSlot
    ensures Shape(h, Store(t, s, v), l) && Holds(Store(t, s, v), Put(m, key, v))
  {
    StoreShape(h, t, l, key, s, v);
    hide Shape, Holds;
    StoreValue(h, t, l, key, s, v);
    PutHolds(t, Store(t, s, v), m, key, v);
  }

  lemma PutHolds(t: Tab, t': Tab, m: map<TValue, TValue>, key: TValue, v: TValue)
    requires Holds(t, m) && forall k :: Value(t', k) == if k == key then v else Value(t, k)
    ensures Holds(t', Put(m, key, v))
  {
    hide Value;
  }

  lemma StoreShape(h: Hash, t: Tab, l: Links, key: TValue, s: Slot, v: TValue)
    requires Shape(h, t, l) && SlotOf(t, key, s) && s != NoSlot
    ensures Shape(h, Store(t, s, v), l)
  {
    hide Chains, HasKey, PowerSized, Pow2;
    if s.InNode? {
      StoreChains(h, t.ns, l, s.i, v);
      var t' := Store(t, s, v);
      assert forall i :: Used(t'.ns, i) <==> Used(t.ns, i);
      assert forall i :: Used(t'.ns, i) ==> t'.ns[i].key == t.ns[i].key;
    }
  }

  lemma StoreValue(h: Hash, t: Tab, l: Links, key: TValue, s: Slot, v: TValue)
    requires Shape(h, t, l) && SlotOf(t, key, s) && s != NoSlot
    ensures forall k :: Value(Store(t, s, v), k) == if k == key then v else Value(t, k)
  {
    if s.InNode? {
      StoreAt(t.ns, s.i, v);
      hide Chains, At, HasKey;
    } else {
      hide Chains, At, HasKey;
    }
  }

  lemma StoreChains(h: Hash, ns: seq<Node>, l: Links, i: int, v: TValue)
    requires Chains(h, ns, l) && Named(ns, i)
    ensures Chains(h, ns[i := ns[i].(val := v)], l)
  {
    hide Linked, Homed, Mp;
    StoreBehind(ns, l, i, v);
    StoreLinked(ns, l, i, v);
    StoreHomed(h, ns, l, i, v);
  }

  lemma StoreBehind(ns: seq<Node>, l: Links, i: int, v: TValue)
    requires DeadBehind(ns, l) && Used(ns, i)
    ensures DeadBehind(ns[i := ns[i].(val := v)], l)
  {
    var ns' := ns[i := ns[i].(val := v)];
    forall j, k ensures BehindAt(ns', l, j, k) {
      assert BehindAt(ns, l, j, k);
    }
  }

  lemma StoreLinked(ns: seq<Node>, l: Links, i: int, v: TValue)
    requires Linked(ns, l) && Used(ns, i)
    ensures Linked(ns[i := ns[i].(val := v)], l)
  {
    var ns' := ns[i := ns[i].(val := v)];
    assert forall j :: Used(ns', j) <==> Used(ns, j);
    assert forall j :: 0 <= j < |ns| ==> ns'[j].next == ns[j].next;
    forall j | Used(ns', j) ensures RootedAt(ns', l, j) && NextAt(ns', l, j) {
      assert RootedAt(ns, l, j) && NextAt(ns, l, j);
    }
  }

  lemma StoreHomed(h: Hash, ns: seq<Node>, l: Links, i: int, v: TValue)
    requires Homed(h, ns, l) && Used(ns, i)
    ensures Homed(h, ns[i := ns[i].(val := v)], l)
  {
    hide Mp;
    var ns' := ns[i := ns[i].(val := v)];
    assert forall j :: 0 <= j < |ns| ==> ns'[j].key == ns[j].key;
    forall j | Used(ns', j) ensures HomedAt(h, ns', l, j) {
      assert HomedAt(h, ns, l, j);
    }
  }

  lemma StoreAt(ns: seq<Node>, i: int, v: TValue)
    requires Distinct(ns) && Named(ns, i)
    ensures var ns' := ns[i := ns[i].(val := v)];
      forall k :: HasKey(ns', k) == HasKey(ns, k) && At(ns', k) == if k == ns[i].key then v else At(ns, k)
  {
    var ns' := ns[i := ns[i].(val := v)];
    assert forall j :: (Used(ns', j) <==> Used(ns, j)) && (Named(ns', j) <==> Named(ns, j));
    assert Distinct(ns');
    forall k ensures HasKey(ns', k) == HasKey(ns, k) && At(ns', k) == if k == ns[i].key then v else At(ns, k) {
      if HasKey(ns, k) {
        var j :| Named(ns, j) && ns[j].key == k;
        AtIs(ns, j);
        AtIs(ns', j);
      } else {
        assert forall j :: Named(ns', j) ==> ns'[j].key == ns[j].key;
      }
    }
  }

  // ------------------------------------------------------- contents of new keys

  ghost predicate HasDead(ns: seq<Node>, key: TValue) { exists j :: Used(ns, j) && ns[j].dead && ns[j].key == key }

  /** Every dead key of ns' was there before. */
  ghost predicate DeadFrom(ns: seq<Node>, ns': seq<Node>) {
    forall i :: Used(ns', i) && ns'[i].dead ==> HasDead(ns, ns'[i].key)
  }

  /** ns' is ns with a node for key, that has no value yet; keys without a value may have gone. */
  ghost predicate Gains(ns: seq<Node>, ns': seq<Node>, key: TValue) {
    && HasKey(ns', key) && At(ns', key) == Nil
    && (forall k :: k != key ==> At(ns', k) == At(ns, k))
    && (forall k :: k != key && HasKey(ns', k) ==> HasKey(ns, k))
    && |ns'| == |ns| && DeadFrom(ns, ns')
  }

  /** Nodes with another key than key are the same in both. */
  ghost predicate Rearranged(ns: seq<Node>, ns': seq<Node>, key: TValue) {
    && |ns'| == |ns| && Distinct(ns) && Distinct(ns') && !HasKey(ns, key) && DeadFrom(ns, ns')
    && (exists i :: Named(ns', i) && ns'[i].key == key && ns'[i].val == Nil)
    && (forall i :: Named(ns', i) && ns'[i].key != key ==>
      exists j :: Named(ns, j) && ns[j].key == ns'[i].key && ns[j].val == ns'[i].val)
    && (forall j :: Named(ns, j) && ns[j].val != Nil ==> exists i :: Named(ns', i) && ns[j].key == ns'[i].key)
  }

  lemma RearrangedGains(ns: seq<Node>, ns': seq<Node>, key: TValue)
    requires Rearranged(ns, ns', key)
    ensures Gains(ns, ns', key)
  {
    var i0 :| Named(ns', i0) && ns'[i0].key == key && ns'[i0].val == Nil;
    AtIs(ns', i0);
    forall k | k != key ensures At(ns', k) == At(ns, k) && (HasKey(ns', k) ==> HasKey(ns, k)) {
      if HasKey(ns', k) {
        var i :| Named(ns', i) && ns'[i].key == k;
        var j :| Named(ns, j) && ns[j].key == ns'[i].key && ns[j].val == ns'[i].val;
        AtIs(ns', i);
        AtIs(ns, j);
      } else if HasKey(ns, k) {
        var j :| Named(ns, j) && ns[j].key == k;
        AtIs(ns, j);
      }
    }
  }

  lemma PlacedGains(ns: seq<Node>, mp: int, key: TValue)
    requires Distinct(ns) && 0 <= mp < |ns| && ns[mp].val == Nil && key != Nil && key != NaN && !HasKey(ns, key)
    ensures Gains(ns, Placed(ns, mp, key), key)
  {
    var ns' := Placed(ns, mp, key);
    PlaceDistinct(ns, mp, key);
    assert Named(ns', mp) && ns'[mp].key == key && ns'[mp].val == Nil;
    assert forall j :: Used(ns', j) && ns'[j].dead ==> Used(ns, j) && ns[j] == ns'[j];
    forall j | Named(ns, j) && ns[j].val != Nil ensures Named(ns', j) && ns[j].key == ns'[j].key {}
    assert Rearranged(ns, ns', key);
    RearrangedGains(ns, ns', key);
  }

  lemma InsertedGains(ns: seq<Node>, mp: int, n: int, key: TValue)
    requires Distinct(ns) && Used(ns, mp) && 0 <= n < |ns| && !Used(ns, n) && key != Nil && key != NaN
      && !HasKey(ns, key)
    ensures Gains(ns, Inserted(ns, mp, n, key), key)
  {
    var ns' := Inserted(ns, mp, n, key);
    InsertDistinct(ns, mp, n, key);
    assert Named(ns', n) && ns'[n].key == key && ns'[n].val == Nil;
    assert forall j :: Used(ns', j) && ns'[j].dead ==> Used(ns, j) && ns[j].dead && ns[j].key == ns'[j].key;
    forall j | Named(ns, j) && ns[j].val != Nil ensures Named(ns', j) && ns[j].key == ns'[j].key {}
    assert Rearranged(ns, ns', key);
    RearrangedGains(ns, ns', key);
  }

  lemma MovedGains(ns: seq<Node>, mp: int, n: int, prev: int, key: TValue)
    requires Distinct(ns) && Used(ns, mp) && Used(ns, prev) && prev != mp && 0 <= n < |ns| && !Used(ns, n)
      && key != Nil && key != NaN && !HasKey(ns, key)
    ensures Gains(ns, Moved(ns, mp, n, prev, key), key)
  {
    var ns' := Moved(ns, mp, n, prev, key);
    MoveDistinct(ns, mp, n, prev, key);
    assert Named(ns', mp) && ns'[mp].key == key && ns'[mp].val == Nil;
    MovedKeys(ns, mp, n, prev, key);
    forall i | Used(ns', i) && ns'[i].dead ensures HasDead(ns, ns'[i].key) {
      var j := if i == n then mp else i;
      assert Used(ns, j) && ns[j].dead && ns[j].key == ns'[i].key;
    }
    forall j | Named(ns, j) && ns[j].val != Nil ensures exists i :: Named(ns', i) && ns[j].key == ns'[i].key {
      var i := if j == mp then n else j;
      assert Named(ns', i) && ns[j].key == ns'[i].key;
    }
    assert Rearranged(ns, ns', key);
    RearrangedGains(ns, ns', key);
  }

  /** A table that gains a key without a value still stands for the same map. */
  lemma GainsHolds(t: Tab, t': Tab, m: map<TValue, TValue>, key: TValue)
    requires Holds(t, m) && t'.arr == t.arr && Gains(t.ns, t'.ns, key) && !HasKey(t.ns, key)
    ensures Holds(t', m)
  {
    forall k ensures Value(t', k) == Value(t, k) {
    }
  }
}
