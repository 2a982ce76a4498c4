/** Tables (ltable.c): an array part and a hash part that are resized together. */
module TableCore {
  import opened Shared
  import opened TableChain
  import opened TableSizes
  import opened TableState
  import opened TableCount

  /** A new key can be placed without a rehash. */
  ghost predicate Room(t: Tab, key: TValue) { InRange(key, 0, |t.arr|) || (!t.dummy && HasFree(t.ns)) }

  ghost predicate AllLive(ns: seq<Node>) { forall i :: Used(ns, i) ==> ns[i].val != Nil }

  /** The table t refilled from m so far stands for cur; the hash part is for the keys r. */
  ghost predicate Refilling(h: Hash, t: Tab, l: Links, m: map<TValue, TValue>, cur: map<TValue, TValue>,
      r: seq<TValue>, nasize: int) {
    && Shape(h, t, l) && Holds(t, cur) && |t.arr| == nasize && AllLive(t.ns)
    && (forall k :: k in cur ==> k in m && cur[k] == m[k]) && (forall k :: k in m ==> m[k] != Nil)
    && (forall k :: k in m && !InRange(k, 0, nasize) ==> k in r)
    && (r != [] ==> !t.dummy && |r| <= |t.ns|)
  }

  class Table {
    const h: Hash
    var arr: seq<TValue>
    var node: seq<Node>
    var dummy: bool
    var lastfree: int
    ghost var links: Links
    ghost var contents: map<TValue, TValue>

    ghost function Tb(): Tab
      reads this
    {
      Tab(arr, node, dummy, lastfree)
    }

    ghost predicate Valid()
      reads this
    {
      Shape(h, Tb(), links) && Holds(Tb(), contents)
    }

    /** luaH_new */
    constructor (hash: Hash, narray: nat, nhash: nat)
      requires narray <= Pow2(MAXBITS) && nhash <= Pow2(MAXBITS)
      ensures Valid() && contents == map[] && h == hash && |arr| == narray && |node| >= nhash
    {
      h := hash;
      arr := [];
      node, dummy, lastfree := [FREE_NODE], true, 0;
      links := Links([0], [0]);
      contents := map[];
      new;
      hide Pow2, PowerSized;
      arr := seq(narray, _ => Nil);
      var st := SetNodeVector(nhash);
      NewTable(h, Tb(), links);
    }

    // ------------------------------------------------------------------ lookup

    /** luaH_get, luaH_getnum and luaH_getstr: array part first, then along the chain. */
    method GetSlot(key: TValue) returns (s: Slot)
      requires Shape(h, Tb(), links)
      ensures SlotOf(Tb(), key, s)
    {
      if key == Nil {
        return NoSlot;
      }
      if key.Num? && 1 <= key.n <= |arr| {
        return InArray(key.n - 1);
      }
      var n := Mp(h, key, |node|);
      hide PowerSized, Pow2;
      while n != NULL
        invariant n != NULL ==> 0 <= n < |node|
        invariant HasKey(node, key) ==> n != NULL && OnTheWay(node, links, n, key)
        decreases if n == NULL then -1 else RankLeft(node, links, n)
      {
        if node[n].key == key && !node[n].dead && key != NaN {
          return InNode(n);
        }
        WalkOn(node, links, n, key);
        n := node[n].next;
      }
      return NoSlot;
    }

    method Get(key: TValue) returns (v: TValue)
      requires Valid()
      ensures v == if key in contents then contents[key] else Nil
    {
      hide Chains, PowerSized;
      var s := GetSlot(key);
      match s
      case InArray(i) => v := arr[i];
      case InNode(i) =>
        DistinctNodes(h, Tb(), links);
        AtIs(node, i);
        v := node[i].val;
      case NoSlot => v := Nil;
    }

    // ----------------------------------------------------------------- new keys

    method GetFreePos() returns (n: int)
      requires Shape(h, Tb(), links)
      modifies this`lastfree
      ensures n == NULL ==> dummy || !HasFree(node)
      ensures (n == NULL ==> Shape(h, Tb(), links)) && lastfree <= old(lastfree)
      ensures n != NULL ==> 0 <= n < |node| && !Used(node, n) && !dummy && lastfree == n && forall i ::
        n < i < |node| ==> Used(node, i)
    {
      hide Chains, PowerSized, Pow2;
      ghost var t := Tb();
      while lastfree > 0
        invariant lastfree <= old(lastfree) && lastfree <= |node| && (dummy ==> lastfree <= 0)
          && (!dummy ==> forall i :: 0 <= i < |node| && lastfree <= i ==> Used(node, i))
        decreases lastfree
      {
        lastfree := lastfree - 1;
        if node[lastfree].key == Nil {
          return lastfree;
        }
      }
      lastfree := lastfree - 1;
      n := NULL;
    }

    /** The loop that finds the node before mp in its chain. */
    method Previous(start: int, mp: int) returns (prev: int)
      requires Linked(node, links) && Used(node, start) && Used(node, mp) && Together(links, start, mp)
        && links.rank[start] < links.rank[mp]
      ensures Used(node, prev) && node[prev].next == mp
    {
      prev := start;
      while node[prev].next != mp
        invariant Used(node, prev) && Together(links, prev, mp) && links.rank[prev] < links.rank[mp]
        decreases links.rank[mp] - links.rank[prev]
      {
        assert NextAt(node, links, prev);
        prev := node[prev].next;
        assert Together(links, prev, mp);
      }
    }

    /** The node at mp is not in its main position: it makes way for the new key. */
    method MakeWay(key: TValue, mp: int, n: int, othern: int)
      requires Chains(h, node, links) && key != Nil && key != NaN && !HasKey(node, key) && Used(node, mp)
        && mp == Mp(h, key, |node|)
      requires 0 <= n < |node| && !Used(node, n) && othern == Mp(h, node[mp].key, |node|) != mp
      modifies this`node, this`links
      ensures Chains(h, node, links) && Gains(old(node), node, key) && node[mp].key == key && !node[mp].dead
      ensures forall j :: Used(node, j) <==> Used(old(node), j) || j == n
    {
      hide Chains, Linked, Homed, Distinct, HasKey, Gains, Moved, MovedLinks, Mp;
      OffHome(h, node, links, mp);
      var prev := Previous(othern, mp);
      NotItself(node, links, prev);
      MoveStep(h, node, links, mp, n, prev, key);
      ghost var l := MovedLinks(node, links, mp, n);
      node := Moved(node, mp, n, prev, key);
      links := l;
    }

    /** The node at mp is in its main position: the new key goes behind it. */
    method LinkBehind(key: TValue, mp: int, n: int)
      requires Chains(h, node, links) && key != Nil && key != NaN && !HasKey(node, key) && Used(node, mp)
        && mp == Mp(h, key, |node|)
      requires 0 <= n < |node| && !Used(node, n) && mp == Mp(h, node[mp].key, |node|) && !node[mp].dead
      modifies this`node, this`links
      ensures Chains(h, node, links) && Gains(old(node), node, key) && node[n].key == key && !node[n].dead
      ensures forall j :: Used(node, j) <==> Used(old(node), j) || j == n
    {
      hide Chains, Linked, Homed, Distinct, DeadBehind, HasKey, Gains, InsertedLinks, Mp;
      DistinctChains(h, node, links);
      InsertOk(h, node, links, mp, n, key);
      InsertedGains(node, mp, n, key);
      ghost var l := InsertedLinks(node, links, mp, n);
      node := Inserted(node, mp, n, key);
      links := l;
    }

    /** newkey: inserts a key that is not in the table; a rehash happens only when no node is free. */
    method NewKey(key: TValue) returns (s: Slot, st: Status)
      requires Valid() && key != Nil && key != NaN && SlotOf(Tb(), key, NoSlot)
      modifies this
      ensures Valid() && contents == old(contents) && (st == Ok || st == Overflow)
      ensures st == Ok ==> SlotOf(Tb(), key, s) && s != NoSlot
      ensures st == Overflow ==> |contents| >= Pow2(MAXBITS)
      ensures Room(old(Tb()), key) ==> st == Ok && Kept(old(Tb()), Tb(), key)
      decreases if Room(Tb(), key) then 0 else 1, 1
    {
      hide Shape, Holds, Gains, Chains, HasKey, Pow2, Mp, Placed, PlacedLinks, Room, Kept;
      ghost var t, l := Tb(), links;
      ShapeParts(h, t, links);
      var mp := Mp(h, key, |node|);
      if node[mp].val != Nil || dummy {
        var n := GetFreePos();
        if n == NULL {
          NoRoom(t, key);
          LowerFree(h, t, l, Tb());
          st := Rehash(key);
          if st == Overflow {
            return NoSlot, st;
          }
          s, st := Set(key);
          return;
        }
        HasRoom(t, key, n);
        UsedNode(h, t, l, mp);
        var othern := Mp(h, node[mp].key, |node|);
        if othern != mp {
          MakeWay(key, mp, n, othern);
          s := InNode(mp);
        } else {
          LinkBehind(key, mp, n);
          s := InNode(n);
        }
        GrownOk(h, t, l, Tb(), links, key, contents);
      } else {
        PlaceOk(h, node, links, mp, key);
        PlacedGains(node, mp, key);
        PlacedUsed(node, mp, key);
        links := PlacedLinks(node, links, mp);
        node := Placed(node, mp, key);
        s := InNode(mp);
        GrownOk(h, t, l, Tb(), links, key, contents);
      }
      st := Ok;
    }

    /** luaH_set: the place for the value of a key. */
    method Set(key: TValue) returns (s: Slot, st: Status)
      requires Valid()
      modifies this
      ensures Valid() && contents == old(contents)
      ensures (st == NilIndex <==> key == Nil) && (st == NaNIndex <==> key == NaN)
      ensures st == NilIndex || st == NaNIndex ==> Tb() == old(Tb())
      ensures st == Ok ==> SlotOf(Tb(), key, s) && s != NoSlot
      ensures st == Overflow ==> |contents| >= Pow2(MAXBITS)
      ensures Room(old(Tb()), key) && key != Nil && key != NaN ==> st == Ok && Kept(old(Tb()), Tb(), key)
      ensures HasEntry(old(Tb()), key) ==> st == Ok && Tb() == old(Tb()) && links == old(links)
      decreases if Room(Tb(), key) then 0 else 1, 2
    {
      hide Shape, Holds, Room, Pow2, Kept;
      s := GetSlot(key);
      ProperSlot(h, Tb(), links, key, s);
      KeptSame(Tb(), key);
      if s != NoSlot {
        st := Ok;
      } else if key == Nil {
        st := NilIndex;
      } else if key == NaN {
        st := NaNIndex;
      } else {
        s, st := NewKey(key);
      }
    }

    /** luaH_set and a store through the place it returns. */
    method SetValue(key: TValue, v: TValue) returns (st: Status)
      requires Valid()
      modifies this
      ensures Valid() && contents == if st == Ok then Put(old(contents), key, v) else old(contents)
      ensures (st == NilIndex <==> key == Nil) && (st == NaNIndex <==> key == NaN)
      ensures st == NilIndex || st == NaNIndex ==> Tb() == old(Tb())
      ensures st == Overflow ==> |old(contents)| >= Pow2(MAXBITS)
      ensures Room(old(Tb()), key) && key != Nil && key != NaN ==> st == Ok && Kept(old(Tb()), Tb(), key)
      ensures HasEntry(old(Tb()), key) ==> st == Ok && SameKeys(old(Tb()), Tb()) && links == old(links)
      ensures key in old(contents) ==> st == Ok
      decreases if Room(Tb(), key) then 0 else 1, 3
    {
      hide Shape, Holds, Room, Pow2, Kept, HasKey, HasEntry;
      if key in contents { ValueHasEntry(Tb(), contents, key); }
      var s;
      s, st := Set(key);
      if st == Ok {
        ghost var t := Tb();
        StoreOk(h, t, links, contents, key, s, v);
        StoreKept(old(Tb()), t, key, s, v);
        match s {
          case InArray(i) => arr := arr[i := v];
          case InNode(i) => node := node[i := node[i].(val := v)];
        }
        contents := Put(contents, key, v);
        assert Tb() == Store(t, s, v);
      }
    }

    /** What the collector does to a table that it traverses: the key of a node without a value
        may be marked as dead. which tells the nodes that it has come to. */
    method KillKeys(which: set<int>)
      requires Valid()
      modifies this`node
      ensures Valid() && SameKeys(old(Tb()), Tb())
      ensures forall i :: 0 <= i < |node| && old(node)[i].val != Nil ==> node[i] == old(node)[i]
    {
      hide Shape, Holds;
      ghost var t := Tb();
      SameKeysRefl(t);
      for i := 0 to |node|
        invariant |node| == |t.ns| && Valid() && SameKeys(t, Tb())
        invariant forall j :: 0 <= j < |node| && t.ns[j].val != Nil ==> node[j] == t.ns[j]
      {
        if i in which && node[i].val == Nil && node[i].key.Other? {
          KillOk(h, Tb(), links, contents, i);
          SameKeysMore(t, Tb(), i);
          node := node[i := node[i].(dead := true)];
        }
      }
    }

    // --------------------------------------------------------------- resizing

    /** setnodevector */
    method SetNodeVector(size: nat) returns (st: Status)
      modifies this`node, this`dummy, this`lastfree, this`links
      ensures st == if size > Pow2(MAXBITS) then Overflow else Ok
      ensures st == Ok ==> |node| >= size && (dummy <==> size == 0) && Emptied(h, Tb(), links)
      ensures st == Overflow ==> Tb() == old(Tb()) && links == old(links)
    {
      hide Pow2, Half, Emptied, PowerSized;
      st := Ok;
      var ns, none := [FREE_NODE], size == 0;
      if !none {
        var l := CeilLog2(size);
        LogFits(size, l);
        if l > MAXBITS {
          return Overflow;
        }
        ns := seq(Pow2(l), _ => FREE_NODE);
      }
      EmptyNodes(h, arr, ns, none);
      node, dummy, lastfree := ns, none, if none then 0 else |ns|;
      links := Links(seq(|ns|, _ => 0), seq(|ns|, _ => 0));
    }

    /** An entry of the old table goes into the new one. */
    method Reinsert(key: TValue, v: TValue, ghost m: map<TValue, TValue>, ghost r: seq<TValue>, ghost nasize: int)
      requires Refilling(h, Tb(), links, m, contents, r, nasize) && key in m && m[key] == v && key !in contents
        && key != Nil && key != NaN
      modifies this
      ensures Refilling(h, Tb(), links, m, contents, r, nasize) && contents == old(contents)[key := v]
      decreases 0, 4
    {
      hide Refilling, Shape, Holds, Room, Pow2, Kept, HasKey;
      RefillRoom(h, Tb(), links, m, contents, r, nasize, key);
      ghost var t, cur, l := Tb(), contents, links;
      var st := SetValue(key, v);
      RefillStep(h, t, l, Tb(), links, m, cur, contents, r, nasize, key);
    }
    /** resize: r are the keys that the new hash part has to take. */
    method Resize(nasize: nat, nhsize: nat, ghost r: seq<TValue>) returns (st: Status)
      requires Valid() && nasize <= Pow2(MAXBITS) && |r| <= nhsize
        && forall k :: k in contents && !InRange(k, 0, nasize) ==> k in r
      modifies this
      ensures contents == old(contents) && st == if nhsize > Pow2(MAXBITS) then Overflow else Ok
      ensures st == Ok ==> Refilling(h, Tb(), links, contents, contents, r, nasize)
      ensures st == Overflow ==> links == old(links) && Tb() == Widened(old(Tb()), nasize)
      decreases 0, 6
    {
      ghost var t, l, m := Tb(), links, contents;
      var oldarr, nold := arr, node;
      hide Refilling, Shape, Holds, Pow2, PowerSized;
      if nasize > |oldarr| {
        arr := oldarr + seq(nasize - |oldarr|, _ => Nil);
      }
      st := SetNodeVector(nhsize);
      if st == Overflow {
        return;
      }
      if nasize < |oldarr| {
        arr := oldarr[..nasize];
      }
      contents := Restricted(m, if nasize < |oldarr| then nasize else |oldarr|);
      RefillStart(h, t, l, m, Tb(), links, nasize, r);
      if nasize < |oldarr| {
        ReinsertSlice(oldarr, nasize, t, l, m, r);
      }
      ReinsertNodes(nold, t, l, m, r, nasize);
    }

    /** luaH_resizearray, which is only called to enlarge the array part. */
    method ResizeArray(nasize: nat)
      requires Valid() && |arr| <= nasize <= Pow2(MAXBITS)
      modifies this
      ensures Valid() && contents == old(contents) && |arr| == nasize
      decreases 0, 7
    {
      var nsize := if dummy then 0 else |node|;
      ghost var r := Outside(LiveKeys(Tb()), nasize);
      hide Shape, Holds, Outside, LiveKeys, Pow2, Refilling;
      StillFits(h, Tb(), links, contents, nasize);
      var st := Resize(nasize, nsize, r);
      Refilled(h, Tb(), links, contents, r, nasize);
    }

    /** The entries of the slice that vanishes from the array part. */
    method ReinsertSlice(oldarr: seq<TValue>, nasize: nat, ghost t: Tab, ghost l: Links, ghost m: map<TValue, TValue>,
        ghost r: seq<TValue>)
      requires Refilling(h, Tb(), links, m, contents, r, nasize) && Shape(h, t, l) && Holds(t, m) && t.arr == oldarr
        && nasize <= |oldarr| && contents == Restricted(m, nasize)
      modifies this
      ensures Refilling(h, Tb(), links, m, contents, r, nasize) && contents == Restricted(m, |oldarr|)
      decreases 0, 5
    {
      hide Refilling, Shape, Holds, Restricted;
      var i := nasize;
      while i < |oldarr|
        invariant nasize <= i <= |oldarr| && Refilling(h, Tb(), links, m, contents, r, nasize)
          && contents == Restricted(m, i)
      {
        SliceStep(t, m, i);
        if oldarr[i] != Nil {
          Reinsert(Num(i + 1), oldarr[i], m, r, nasize);
        }
        i := i + 1;
      }
    }

    /** The entries of the old hash part. */
    method ReinsertNodes(nold: seq<Node>, ghost t: Tab, ghost l: Links, ghost m: map<TValue, TValue>,
        ghost r: seq<TValue>, ghost nasize: int)
      requires Refilling(h, Tb(), links, m, contents, r, nasize) && Shape(h, t, l) && Holds(t, m) && t.ns == nold
        && contents == Restricted(m, |t.arr|)
      modifies this
      ensures Refilling(h, Tb(), links, m, contents, r, nasize) && contents == m
      decreases 0, 5
    {
      hide Refilling, Shape, Holds, Restricted, Added;
      var i := |nold|;
      AddedNone(t, m);
      while i > 0
        invariant 0 <= i <= |nold| && Refilling(h, Tb(), links, m, contents, r, nasize) && contents == Added(t, m, i)
      {
        i := i - 1;
        AddedStep(h, t, l, m, i);
        if nold[i].val != Nil {
          Reinsert(nold[i].key, nold[i].val, m, r, nasize);
        }
      }
      AddedAll(h, t, l, m);
    }

    /** rehash: sizes for the two parts are chosen anew, with one more key to come. */
    method Rehash(ek: TValue) returns (st: Status)
      requires Valid() && ek != Nil && ek != NaN && SlotOf(Tb(), ek, NoSlot)
      modifies this
      ensures Valid() && contents == old(contents) && (st == Ok || st == Overflow)
      ensures st == Ok ==> Room(Tb(), ek) && BestSize(LiveKeys(old(Tb())) + [ek], |arr|) && AllLive(node)
      ensures st == Overflow ==> |contents| >= Pow2(MAXBITS)
      decreases 1, 0
    {
      hide Shape, Holds, LiveKeys, BestSize, Refilling, Outside, Room, AllDistinct, AllLive, Pow2, InRange, HasKey,
        Widened;
      ghost var t := Tb();
      ghost var ks := LiveKeys(t) + [ek];
      KeysWithExtra(h, t, links, contents, ek);
      var n, nhsize := NewSizes(ek);
      ghost var r := Outside(ks, n);
      OutsideOk(ks, n);
      BestIsSmall(ks, n);
      ExtraOutside(ks, n, ek, contents, LiveKeys(t));
      st := Resize(n, nhsize, r);
      if st == Ok {
        RefilledOk(h, Tb(), links, contents, r, n, ek);
      } else {
        OutsideSmall(ks, n, contents, LiveKeys(t), ek);
        OverflowKeeps(h, t, links, contents, ek, n);
      }
    }

    /** The first half of rehash: counting. */
    method NewSizes(ek: TValue) returns (nasize: nat, nhsize: nat)
      requires Shape(h, Tb(), links) && AllDistinct(LiveKeys(Tb()) + [ek])
      ensures BestSize(LiveKeys(Tb()) + [ek], nasize) && nhsize == |Outside(LiveKeys(Tb()) + [ek], nasize)|
    {
      ghost var ks := LiveKeys(Tb()) + [ek];
      hide Shape, LiveKeys, BestSize, Outside, AllDistinct, Pow2, Sliced, Counted, CountIn, ArrayKeys, HashKeys;
      ArraySmall(h, Tb(), links);
      var nums := new int[MAXBITS + 1](_ => 0);
      ghost var n0 := nums[..];
      var na0 := NumUseArray(arr, nums);
      ghost var n1 := nums[..];
      var tu, au := NumUseHash(node, nums);
      ghost var n2 := nums[..];
      var c := CountInt(ek, nums);
      var narray, totaluse := na0 + au + c, na0 + tu + 1;
      SlicedAll(n0, n1, n2, nums[..], Tb(), ek, narray, au, c);
      var n, na := ComputeSizes(nums, narray, ks);
      OutsideOk(ks, n);
      BestIsSmall(ks, n);
      assert totaluse == |ks| by { KeyCount(Tb(), ek); }
      nasize, nhsize := n, totaluse - na;
    }
  }

  lemma NewTable(h: Hash, t: Tab, l: Links)
    requires Emptied(h, t, l) && |t.arr| <= Pow2(MAXBITS) && forall i :: 0 <= i < |t.arr| ==> t.arr[i] == Nil
    ensures Shape(h, t, l) && Holds(t, map[])
  {
    hide Chains, PowerSized, Pow2;
    EmptyChains(h, t.ns, l);
    assert forall i :: !Used(t.ns, i);
    assert forall k :: At(t.ns, k) == Nil;
  }

  /** The part of the map with integer keys up to n. */
  ghost function Restricted(m: map<TValue, TValue>, n: int): map<TValue, TValue> {
    map k | k in m && InRange(k, 0, n) :: m[k]
  }

  lemma RefillStart(h: Hash, t: Tab, l: Links, m: map<TValue, TValue>, t': Tab, l': Links, nasize: int, r: seq<TValue>)
    requires Shape(h, t, l) && Holds(t, m) && Emptied(h, t', l') && 0 <= nasize <= Pow2(MAXBITS)
    requires t'.arr == (if nasize <= |t.arr| then t.arr[..nasize] else t.arr + seq(nasize - |t.arr|, _ => Nil))
    requires (forall k :: k in m && !InRange(k, 0, nasize) ==> k in r) && (r != [] ==> !t'.dummy && |r| <= |t'.ns|)
    ensures Refilling(h, t', l', m, Restricted(m, if nasize < |t.arr| then nasize else |t.arr|), r, nasize)
  {
    hide Chains, PowerSized, Pow2, Holds, Linked, Homed;
    EmptyChains(h, t'.ns, l');
    assert forall i :: !Used(t'.ns, i);
    RefillHolds(t, m, t', nasize);
    RefillSubmap(t, m, nasize);
  }

  lemma RefillSubmap(t: Tab, m: map<TValue, TValue>, n: int)
    requires Holds(t, m)
    ensures (forall k :: k in Restricted(m, n) ==> k in m && Restricted(m, n)[k] == m[k]) && forall k :: k in m ==>
      m[k] != Nil
  {
    hide Value;
  }

  lemma RefillHolds(t: Tab, m: map<TValue, TValue>, t': Tab, nasize: int)
    requires Holds(t, m) && 0 <= nasize && forall i :: !Used(t'.ns, i)
    requires t'.arr == (if nasize <= |t.arr| then t.arr[..nasize] else t.arr + seq(nasize - |t.arr|, _ => Nil))
    ensures Holds(t', Restricted(m, if nasize < |t.arr| then nasize else |t.arr|))
  {
    var cur := Restricted(m, if nasize < |t.arr| then nasize else |t.arr|);
    assert forall k :: At(t'.ns, k) == Nil;
    hide At;
    forall k ensures (k in cur <==> Value(t', k) != Nil) && (k in cur ==> cur[k] == Value(t', k)) {
    }
  }

  lemma EmptyChains(h: Hash, ns: seq<Node>, l: Links)
    requires |ns| >= 1 && (forall i :: 0 <= i < |ns| ==> ns[i] == FREE_NODE) && |l.root| == |l.rank| == |ns|
    ensures Chains(h, ns, l)
  {
  }

  lemma SliceStep(t: Tab, m: map<TValue, TValue>, i: int)
    requires Holds(t, m) && 0 <= i < |t.arr|
    ensures var k := Num(i + 1);
      && (k in m <==> t.arr[i] != Nil) && (k in m ==> m[k] == t.arr[i]) && k !in Restricted(m, i)
      && Restricted(m, i + 1) == (if t.arr[i] != Nil then Restricted(m, i)[k := t.arr[i]] else Restricted(m, i))
  {
    assert Value(t, Num(i + 1)) == t.arr[i];
    hide Value;
  }

  /** The part of the map in the array part of t and in its nodes from i on. */
  ghost function Added(t: Tab, m: map<TValue, TValue>, i: int): map<TValue, TValue> {
    map k | k in m && (InRange(k, 0, |t.arr|) || exists j :: i <= j && LiveNode(t.ns, j) && t.ns[j].key == k) :: m[k]
  }

  lemma AddedNone(t: Tab, m: map<TValue, TValue>)
    ensures Added(t, m, |t.ns|) == Restricted(m, |t.arr|)
  {
  }

  lemma AddedStep(h: Hash, t: Tab, l: Links, m: map<TValue, TValue>, i: int)
    requires Shape(h, t, l) && Holds(t, m) && 0 <= i < |t.ns|
    ensures var k, v := t.ns[i].key, t.ns[i].val;
      if v == Nil then Added(t, m, i) == Added(t, m, i + 1)
      else
        && k in m && m[k] == v && k !in Added(t, m, i + 1) && Added(t, m, i) == Added(t, m, i + 1)[k := v]
        && k != Nil && k != NaN
  {
    LiveUsed(h, t, l);
    hide Shape, LiveDistinct;
    if t.ns[i].val != Nil {
      assert LiveNode(t.ns, i);
      AtIs(t.ns, i);
      assert Value(t, t.ns[i].key) == t.ns[i].val;
    }
    hide Holds, Value, At, HasKey;
    AddedMore(t, m, i);
  }

  lemma AddedMore(t: Tab, m: map<TValue, TValue>, i: int)
    requires 0 <= i < |t.ns| && LiveDistinct(t.ns)
      && (LiveNode(t.ns, i) ==> t.ns[i].key in m && m[t.ns[i].key] == t.ns[i].val && !InRange(t.ns[i].key, 0, |t.arr|))
    ensures var k, v := t.ns[i].key, t.ns[i].val;
      if v == Nil then Added(t, m, i) == Added(t, m, i + 1)
      else k !in Added(t, m, i + 1) && Added(t, m, i) == Added(t, m, i + 1)[k := v]
  {
    forall k | k in m ensures (exists j :: i <= j && LiveNode(t.ns, j) && t.ns[j].key == k) <==>
        (exists j :: i + 1 <= j && LiveNode(t.ns, j) && t.ns[j].key == k) || (LiveNode(t.ns, i) && t.ns[i].key == k) {
    }
  }

  lemma AddedAll(h: Hash, t: Tab, l: Links, m: map<TValue, TValue>)
    requires Shape(h, t, l) && Holds(t, m)
    ensures Added(t, m, 0) == m
  {
    LiveUsed(h, t, l);
    hide Shape;
    forall k | k in m && !InRange(k, 0, |t.arr|) ensures exists j :: 0 <= j && LiveNode(t.ns, j) && t.ns[j].key == k {
      assert Value(t, k) != Nil;
      var j :| Named(t.ns, j) && t.ns[j].key == k;
      AtIs(t.ns, j);
      assert LiveNode(t.ns, j);
    }
  }

  // ---------------------------------------------------- counting for rehash

  lemma KeysWithExtra(h: Hash, t: Tab, l: Links, m: map<TValue, TValue>, ek: TValue)
    requires Shape(h, t, l) && Holds(t, m) && SlotOf(t, ek, NoSlot)
    ensures AllDistinct(LiveKeys(t) + [ek]) && ek !in m && forall k :: k in LiveKeys(t) <==> k in m
  {
    LiveKeysOk(h, t, l, m);
    assert Value(t, ek) == Nil;
    hide LiveKeys, Shape;
  }

  lemma BestIsSmall(ks: seq<TValue>, n: int)
    requires BestSize(ks, n)
    ensures 0 <= n <= Pow2(MAXBITS)
  {
    if n != 0 {
      var i :| 0 <= i < MAXBITS + 1 && n == Pow2(i);
      Pow2Mono(i, MAXBITS);
    }
  }

  lemma ExtraOutside(ks: seq<TValue>, n: int, ek: TValue, m: map<TValue, TValue>, live: seq<TValue>)
    requires AllDistinct(ks) && ks == live + [ek] && forall k :: k in live <==> k in m
    ensures (forall k :: k in m && !InRange(k, 0, n) ==> k in Outside(ks, n))
      && (InRange(ek, 0, n) || ek in Outside(ks, n))
  {
    OutsideOk(ks, n);
    assert ek in ks && forall k :: k in live ==> k in ks;
  }

  lemma OutsideSmall(ks: seq<TValue>, n: int, m: map<TValue, TValue>, live: seq<TValue>, ek: TValue)
    requires AllDistinct(ks) && ks == live + [ek] && (forall k :: k in live <==> k in m)
      && |Outside(ks, n)| > Pow2(MAXBITS)
    ensures |m| >= Pow2(MAXBITS)
  {
    hide Pow2, Outside, CountIn;
    OutsideOk(ks, n);
    assert AllDistinct(live) by { assert forall i :: 0 <= i < |live| ==> ks[i] == live[i]; }
    SetOfSeq(live);
    assert (set k | k in live) == m.Keys;
  }

  /** The array part grown to n places, if it had fewer. */
  function Widened(t: Tab, n: nat): Tab {
    if n > |t.arr| then t.(arr := t.arr + seq(n - |t.arr|, _ => Nil)) else t
  }

  lemma WidenedOk(h: Hash, t: Tab, l: Links, m: map<TValue, TValue>, n: nat)
    requires Shape(h, t, l) && Holds(t, m) && n <= Pow2(MAXBITS)
    requires n > |t.arr| ==> forall i :: Used(t.ns, i) ==> !InRange(t.ns[i].key, 0, n)
    ensures Shape(h, Widened(t, n), l) && Holds(Widened(t, n), m)
  {
    hide Chains, PowerSized, Pow2;
    if n > |t.arr| {
      assert forall k :: InRange(k, 0, n) ==> At(t.ns, k) == Nil;
      hide At, HasKey;
      assert forall k :: Value(Widened(t, n), k) == Value(t, k);
    }
  }

  /** The error "table overflow" comes after the array part has grown. Yet all entries can still
      be found: the hash part can ask for too much only if every one of its nodes has a value and
      none of its keys belongs in the larger array part. */
  lemma OverflowKeeps(h: Hash, t: Tab, l: Links, m: map<TValue, TValue>, ek: TValue, n: nat)
    requires Shape(h, t, l) && Holds(t, m) && SlotOf(t, ek, NoSlot) && n <= Pow2(MAXBITS)
    requires |Outside(LiveKeys(t) + [ek], n)| > Pow2(MAXBITS)
    ensures Shape(h, Widened(t, n), l) && Holds(Widened(t, n), m)
  {
    hide Shape, Holds, LiveKeys, Outside, Pow2;
    if n > |t.arr| {
      KeysWithExtra(h, t, l, m, ek);
      NoneMoves(h, t, l, ek, n);
    }
    WidenedOk(h, t, l, m, n);
  }

  lemma NoneMoves(h: Hash, t: Tab, l: Links, ek: TValue, n: nat)
    requires Shape(h, t, l) && n > |t.arr| && AllDistinct(LiveKeys(t) + [ek])
    requires |Outside(LiveKeys(t) + [ek], n)| > Pow2(MAXBITS)
    ensures forall i :: Used(t.ns, i) ==> !InRange(t.ns[i].key, 0, n)
  {
    hide Shape, Pow2, ArrayKeys, HashKeys, CountIn, Outside, AllDistinct;
    var a, b := ArrayKeys(t.arr), HashKeys(t.ns);
    OutsideOk(LiveKeys(t) + [ek], n);
    ArrayKeysIn(t.arr);
    CountAll(a, 0, n);
    CountConcat(a + b, [ek], 0, n);
    CountConcat(a, b, 0, n);
    HashKeysFew(t.ns);
    SizeFits(h, t, l);
    DummyEmpty(h, t, l);
    AllNodesLive(t.ns);
    HashKeysIn(t.ns);
    forall i | Used(t.ns, i) ensures !InRange(t.ns[i].key, 0, n) {
      assert LiveNode(t.ns, i) && t.ns[i].key in b;
      if InRange(t.ns[i].key, 0, n) {
        CountPositive(b, t.ns[i].key, 0, n);
      }
    }
  }

  lemma {:induction false} CountPositive(ks: seq<TValue>, k: TValue, lo: int, hi: int)
    requires k in ks && InRange(k, lo, hi)
    ensures CountIn(ks, lo, hi) > 0
  {
    if ks[|ks| - 1] != k {
      CountPositive(ks[..|ks| - 1], k, lo, hi);
    }
  }

  lemma DummyEmpty(h: Hash, t: Tab, l: Links)
    requires Shape(h, t, l)
    ensures t.dummy ==> HashKeys(t.ns) == []
  {
    if t.dummy {
      assert t.ns[1..] == [];
    }
  }

  /** With as many keys as nodes every node has a value. */
  lemma {:induction false} AllNodesLive(ns: seq<Node>)
    ensures |HashKeys(ns)| <= |ns| && (|HashKeys(ns)| == |ns| ==> forall i :: 0 <= i < |ns| ==> ns[i].val != Nil)
  {
    if ns != [] {
      AllNodesLive(ns[1..]);
      assert forall i :: 1 <= i < |ns| ==> ns[i] == ns[1..][i - 1];
    }
  }

  lemma RefilledOk(h: Hash, t: Tab, l: Links, m: map<TValue, TValue>, r: seq<TValue>, n: int, ek: TValue)
    requires Refilling(h, t, l, m, m, r, n) && ek !in m && (InRange(ek, 0, n) || ek in r)
    ensures Room(t, ek) && Shape(h, t, l) && Holds(t, m) && |t.arr| == n && AllLive(t.ns)
  {
    if !InRange(ek, 0, n) {
      RefillRoom(h, t, l, m, m, r, n, ek);
    }
  }

  lemma Refilled(h: Hash, t: Tab, l: Links, m: map<TValue, TValue>, r: seq<TValue>, n: int)
    requires Refilling(h, t, l, m, m, r, n)
    ensures Shape(h, t, l) && Holds(t, m) && |t.arr| == n
  {
  }

  /** A hash part that held all its keys will hold those left to it when the array part grows. */
  lemma StillFits(h: Hash, t: Tab, l: Links, m: map<TValue, TValue>, n: int)
    requires Shape(h, t, l) && Holds(t, m) && |t.arr| <= n
    ensures var r := Outside(LiveKeys(t), n);
      && |r| <= (if t.dummy then 0 else |t.ns|) <= Pow2(MAXBITS) && forall k :: k in m && !InRange(k, 0, n) ==> k in r
  {
    LiveKeysOk(h, t, l, m);
    OutsideOk(LiveKeys(t), n);
    ArrayKeysIn(t.arr);
    CountAll(ArrayKeys(t.arr), 0, n);
    CountConcat(ArrayKeys(t.arr), HashKeys(t.ns), 0, n);
    HashKeysFew(t.ns);
    SizeFits(h, t, l);
    if t.dummy {
      assert t.ns[1..] == [] && HashKeys(t.ns) == [];
    }
  }

  lemma {:induction false} HashKeysFew(ns: seq<Node>)
    ensures |HashKeys(ns)| <= |ns|
  {
    if ns != [] {
      HashKeysFew(ns[1..]);
    }
  }

  lemma SizeFits(h: Hash, t: Tab, l: Links)
    requires Shape(h, t, l)
    ensures !t.dummy ==> |t.ns| <= Pow2(MAXBITS)
  {
    if !t.dummy {
      var b: nat :| b <= MAXBITS && |t.ns| == Pow2(b);
      Pow2Mono(b, MAXBITS);
    }
  }

  lemma ArraySmall(h: Hash, t: Tab, l: Links)
    requires Shape(h, t, l)
    ensures |t.arr| <= Pow2(MAXBITS)
  {
  }

  lemma KeyCount(t: Tab, ek: TValue)
    ensures |LiveKeys(t) + [ek]| == |ArrayKeys(t.arr)| + |HashKeys(t.ns)| + 1
  {
  }

  lemma {:induction false} CountAll(ks: seq<TValue>, lo: int, hi: int)
    requires forall k :: k in ks ==> InRange(k, lo, hi)
    ensures CountIn(ks, lo, hi) == |ks|
  {
    if ks != [] {
      CountAll(ks[..|ks| - 1], lo, hi);
    }
  }

  /** The counts of the three kinds of keys add up. */
  lemma SlicedAll(n0: seq<int>, n1: seq<int>, n2: seq<int>, n3: seq<int>, t: Tab, ek: TValue, narray: int, au: int,
      c: int)
    requires |n0| == MAXBITS + 1 && (forall i :: 0 <= i < |n0| ==> n0[i] == 0) && |t.arr| <= Pow2(MAXBITS)
    requires Counted(n0, n1, ArrayKeys(t.arr), MAXBITS + 1) && Counted(n1, n2, HashKeys(t.ns), MAXBITS + 1)
      && Counted(n2, n3, [ek], MAXBITS + 1)
    requires narray == |ArrayKeys(t.arr)| + au + c && au == CountIn(HashKeys(t.ns), 0, Pow2(MAXBITS))
      && c == if InRange(ek, 0, Pow2(MAXBITS)) then 1 else 0
    ensures Sliced(n3, LiveKeys(t) + [ek]) && narray == CountIn(LiveKeys(t) + [ek], 0, Pow2(MAXBITS))
  {
    var a, b := ArrayKeys(t.arr), HashKeys(t.ns);
    ArrayKeysIn(t.arr);
    hide ArrayKeys, HashKeys, CountIn, Pow2, Half, Counted;
    CountedJoin(n0, n1, n2, a, b);
    CountedJoin(n0, n2, n3, a + b, [ek]);
    CountConcat(a + b, [ek], 0, Pow2(MAXBITS));
    CountConcat(a, b, 0, Pow2(MAXBITS));
    CountSingle(ek, 0, Pow2(MAXBITS));
    CountAll(a, 0, Pow2(MAXBITS));
    SlicedFromZero(n0, n3, a + b + [ek]);
  }

  lemma SlicedFromZero(n0: seq<int>, n: seq<int>, ks: seq<TValue>)
    requires Counted(n0, n, ks, MAXBITS + 1) && forall i :: 0 <= i < |n0| ==> n0[i] == 0
    ensures Sliced(n, ks)
  {
    hide CountIn, Pow2, Half;
  }

  /** The key has a place in the table, with or without a value. */
  ghost predicate HasEntry(t: Tab, key: TValue) { InRange(key, 0, |t.arr|) || HasKey(t.ns, key) }

  lemma ValueHasEntry(t: Tab, m: map<TValue, TValue>, key: TValue)
    requires Holds(t, m) && key in m
    ensures HasEntry(t, key)
  {
    assert Value(t, key) != Nil;
  }

  /** Only values differ. */
  ghost predicate SameKeys(t: Tab, t': Tab) {
    |t'.arr| == |t.arr| && |t'.ns| == |t.ns| && forall i :: 0 <= i < |t.ns| ==> t'.ns[i].key == t.ns[i].key
  }

  /** What a new key does not change when there is room for it. */
  ghost predicate Kept(t: Tab, t': Tab, key: TValue) {
    && t'.dummy == t.dummy && |t'.ns| == |t.ns| && |t'.arr| == |t.arr| && DeadFrom(t.ns, t'.ns)
    && forall k :: k != key && HasKey(t'.ns, k) ==> HasKey(t.ns, k)
  }

  function Killed(t: Tab, i: int): Tab
    requires 0 <= i < |t.ns|
  {
    t.(ns := t.ns[i := t.ns[i].(dead := true)])
  }

  lemma SameKeysRefl(t: Tab)
    ensures SameKeys(t, t)
  {
  }

  lemma SameKeysMore(t: Tab, t': Tab, i: int)
    requires SameKeys(t, t') && 0 <= i < |t'.ns|
    ensures SameKeys(t, Killed(t', i))
  {
  }

  /** A table does not answer differently for a key without a value being dead. */
  lemma KillOk(h: Hash, t: Tab, l: Links, m: map<TValue, TValue>, i: int)
    requires Shape(h, t, l) && Holds(t, m) && 0 <= i < |t.ns| && t.ns[i].val == Nil && t.ns[i].key != Nil
    ensures Shape(h, Killed(t, i), l) && Holds(Killed(t, i), m)
  {
    KillShape(h, t, l, i);
    hide Shape, Holds;
    DistinctNodes(h, t, l);
    DistinctNodes(h, Killed(t, i), l);
    KillHolds(t, m, i);
  }

  lemma KillHolds(t: Tab, m: map<TValue, TValue>, i: int)
    requires Holds(t, m) && 0 <= i < |t.ns| && t.ns[i].val == Nil && Distinct(t.ns) && Distinct(Killed(t, i).ns)
    ensures Holds(Killed(t, i), m)
  {
    var ns' := Killed(t, i).ns;
    assert forall j :: Named(ns', j) <==> Named(t.ns, j) && j != i;
    forall k ensures At(ns', k) == At(t.ns, k) {
      if HasKey(ns', k) {
        var j :| Named(ns', j) && ns'[j].key == k;
        AtIs(ns', j);
        AtIs(t.ns, j);
      } else if HasKey(t.ns, k) {
        var j :| Named(t.ns, j) && t.ns[j].key == k;
        AtIs(t.ns, j);
      }
    }
    hide At;
    assert forall k :: Value(Killed(t, i), k) == Value(t, k);
  }

  lemma KillShape(h: Hash, t: Tab, l: Links, i: int)
    requires Shape(h, t, l) && 0 <= i < |t.ns| && t.ns[i].val == Nil && t.ns[i].key != Nil
    ensures Shape(h, Killed(t, i), l)
  {
    hide PowerSized, Pow2, Linked, Homed, DeadBehind, Mp;
    var ns' := Killed(t, i).ns;
    assert forall j :: Used(ns', j) <==> Used(t.ns, j);
    KillLinked(t.ns, l, i);
    KillHomed(h, t.ns, l, i);
    KillBehind(t.ns, l, i);
  }

  lemma KillLinked(ns: seq<Node>, l: Links, i: int)
    requires Linked(ns, l) && Used(ns, i)
    ensures Linked(ns[i := ns[i].(dead := true)], l)
  {
    var ns' := ns[i := ns[i].(dead := true)];
    assert forall j :: Used(ns', j) <==> Used(ns, j);
    assert forall j :: 0 <= j < |ns| ==> ns'[j].next == ns[j].next;
    forall j | Used(ns', j) ensures RootedAt(ns', l, j) && NextAt(ns', l, j) {
      assert RootedAt(ns, l, j) && NextAt(ns, l, j);
    }
  }

  lemma KillHomed(h: Hash, ns: seq<Node>, l: Links, i: int)
    requires Homed(h, ns, l) && Used(ns, i)
    ensures Homed(h, ns[i := ns[i].(dead := true)], l)
  {
    hide Mp;
    var ns' := ns[i := ns[i].(dead := true)];
    assert forall j :: 0 <= j < |ns| ==> ns'[j].key == ns[j].key;
    forall j | Used(ns', j) ensures HomedAt(h, ns', l, j) {
      assert HomedAt(h, ns, l, j);
    }
  }

  lemma KillBehind(ns: seq<Node>, l: Links, i: int)
    requires DeadBehind(ns, l) && Distinct(ns) && Used(ns, i)
    ensures DeadBehind(ns[i := ns[i].(dead := true)], l)
  {
    var ns' := ns[i := ns[i].(dead := true)];
    forall j, k ensures BehindAt(ns', l, j, k) {
      assert BehindAt(ns, l, j, k);
    }
  }

  ghost predicate Emptied(h: Hash, t: Tab, l: Links) {
    && |t.ns| >= 1 && (forall i :: 0 <= i < |t.ns| ==> t.ns[i] == FREE_NODE) && |l.root| == |l.rank| == |t.ns|
    && (if t.dummy then t.ns == [FREE_NODE] && t.lastfree == 0 else PowerSized(|t.ns|) && t.lastfree == |t.ns|)
  }

  lemma EmptyNodes(h: Hash, arr: seq<TValue>, ns: seq<Node>, dummy: bool)
    requires |ns| >= 1 && forall i :: 0 <= i < |ns| ==> ns[i] == FREE_NODE
    requires if dummy then ns == [FREE_NODE] else exists l: nat :: l <= MAXBITS && |ns| == Pow2(l)
    ensures var t := Tab(arr, ns, dummy, if dummy then 0 else |ns|);
      Emptied(h, t, Links(seq(|ns|, _ => 0), seq(|ns|, _ => 0)))
  {
    hide Pow2;
  }

  lemma LogFits(size: nat, l: nat)
    requires Half(l) < size <= Pow2(l)
    ensures l > MAXBITS <==> size > Pow2(MAXBITS)
  {
    hide Pow2;
    if l > MAXBITS { Pow2Mono(MAXBITS, l - 1); } else { Pow2Mono(l, MAXBITS); }
  }

  lemma KeptSame(t: Tab, key: TValue)
    ensures Kept(t, t, key)
  {
  }

  lemma ShapeParts(h: Hash, t: Tab, l: Links)
    requires Shape(h, t, l)
    ensures |t.ns| >= 1 && Chains(h, t.ns, l) && Distinct(t.ns) && |l.root| == |l.rank| == |t.ns|
    ensures !t.dummy ==> forall i :: 0 <= i < |t.ns| && t.lastfree <= i ==> Used(t.ns, i)
  {
  }

  lemma NoRoom(t: Tab, key: TValue)
    requires SlotOf(t, key, NoSlot) && (t.dummy || !HasFree(t.ns))
    ensures !Room(t, key)
  {
  }

  lemma HasRoom(t: Tab, key: TValue, n: int)
    requires !t.dummy && 0 <= n < |t.ns| && !Used(t.ns, n)
    ensures Room(t, key)
  {
  }

  lemma LowerFree(h: Hash, t: Tab, l: Links, t': Tab)
    requires Shape(h, t', l) && t' == t.(lastfree := t'.lastfree)
    ensures forall m :: Holds(t, m) ==> Holds(t', m)
    ensures forall k, s :: SlotOf(t, k, s) ==> SlotOf(t', k, s)
  {
    assert forall k :: Value(t', k) == Value(t, k);
  }

  lemma UsedNode(h: Hash, t: Tab, l: Links, i: int)
    requires Shape(h, t, l) && 0 <= i < |t.ns| && t.ns[i].val != Nil
    ensures Named(t.ns, i)
  {
  }

  lemma PlacedUsed(ns: seq<Node>, mp: int, key: TValue)
    requires 0 <= mp < |ns| && key != Nil
    ensures var ns' := Placed(ns, mp, key); |ns'| == |ns| && ns'[mp].key == key && !ns'[mp].dead && forall j ::
      Used(ns', j) <==> Used(ns, j) || j == mp
  {
  }

  lemma ProperSlot(h: Hash, t: Tab, l: Links, key: TValue, s: Slot)
    requires Shape(h, t, l) && SlotOf(t, key, s)
    ensures s != NoSlot ==> key != Nil && key != NaN
  {
  }

  /** The table after a new key has found a node. */
  lemma GrownOk(h: Hash, t: Tab, l: Links, t': Tab, l': Links, key: TValue, m: map<TValue, TValue>)
    requires Shape(h, t, l) && Holds(t, m) && SlotOf(t, key, NoSlot) && Chains(h, t'.ns, l') && Gains(t.ns, t'.ns, key)
      && !t.dummy && !t'.dummy
    requires t'.arr == t.arr && t'.lastfree <= t.lastfree && (forall j :: Used(t.ns, j) ==> Used(t'.ns, j))
      && (forall i :: 0 <= i < |t.ns| && t'.lastfree <= i ==> Used(t'.ns, i))
    ensures Shape(h, t', l') && Holds(t', m) && Kept(t, t', key)
  {
    hide Holds, Chains, At, PowerSized, Pow2;
    GainsHolds(t, t', m, key);
    GrownKeys(t, t', key);
    hide HasKey;
  }

  lemma GrownKeys(t: Tab, t': Tab, key: TValue)
    requires SlotOf(t, key, NoSlot) && Gains(t.ns, t'.ns, key) && t'.arr == t.arr && forall i :: Used(t.ns, i) ==>
      !InRange(t.ns[i].key, 0, |t.arr|)
    ensures forall i :: Used(t'.ns, i) ==> !InRange(t'.ns[i].key, 0, |t'.arr|)
  {
    hide At;
    forall i | Used(t'.ns, i) ensures !InRange(t'.ns[i].key, 0, |t'.arr|) {
      var k := t'.ns[i].key;
      if t'.ns[i].dead {
        assert HasDead(t.ns, k);
      } else {
        assert HasKey(t'.ns, k);
        assert k != key ==> HasKey(t.ns, k);
      }
    }
  }

  lemma StoreKept(t0: Tab, t: Tab, key: TValue, s: Slot, v: TValue)
    requires SlotOf(t, key, s)
    ensures Kept(t0, t, key) ==> Kept(t0, Store(t, s, v), key)
  {
    var t' := Store(t, s, v);
    forall k | HasKey(t'.ns, k) ensures HasKey(t.ns, k) {
      var i :| Named(t'.ns, i) && t'.ns[i].key == k;
      assert Named(t.ns, i) && t.ns[i].key == k;
    }
  }

  /** While the table is refilled there is room for each key that is still to come. */
  lemma RefillRoom(h: Hash, t: Tab, l: Links, m: map<TValue, TValue>, cur: map<TValue, TValue>, r: seq<TValue>,
      nasize: int, key: TValue)
    requires Refilling(h, t, l, m, cur, r, nasize) && key !in cur && (key in m || key in r)
    ensures Room(t, key) && Shape(h, t, l) && Holds(t, cur) && (key in m ==> m[key] != Nil)
  {
    if !InRange(key, 0, nasize) {
      assert key in r;
      assert Distinct(t.ns);
      forall i | Used(t.ns, i) ensures Named(t.ns, i) && t.ns[i].key in r && t.ns[i].key != key {
        AtIs(t.ns, i);
        assert Value(t, t.ns[i].key) != Nil;
      }
      RoomLeft(t.ns, r, key);
    }
  }

  lemma RefillStep(h: Hash, t: Tab, l: Links, t': Tab, l': Links, m: map<TValue, TValue>, cur: map<TValue, TValue>,
      cur': map<TValue, TValue>, r: seq<TValue>, nasize: int, key: TValue)
    requires Refilling(h, t, l, m, cur, r, nasize) && key in m && cur' == Put(cur, key, m[key]) && Shape(h, t', l')
      && Holds(t', cur') && Kept(t, t', key)
    ensures Refilling(h, t', l', m, cur', r, nasize)
  {
    hide Shape, HasKey, Value;
    DistinctNodes(h, t, l);
    DistinctNodes(h, t', l');
    RefillLive(t, t', cur, cur', key);
    hide Holds;
  }

  lemma RefillLive(t: Tab, t': Tab, cur: map<TValue, TValue>, cur': map<TValue, TValue>, key: TValue)
    requires AllLive(t.ns) && Distinct(t.ns) && Distinct(t'.ns) && Holds(t, cur) && Holds(t', cur') && Kept(t, t', key)
      && key in cur' && (forall k :: k in cur ==> k in cur')
    requires (forall i :: Used(t.ns, i) ==> !InRange(t.ns[i].key, 0, |t.arr|))
      && (forall i :: Used(t'.ns, i) ==> !InRange(t'.ns[i].key, 0, |t'.arr|))
    ensures AllLive(t'.ns)
  {
    forall i | Used(t'.ns, i) ensures t'.ns[i].val != Nil {
      var k := t'.ns[i].key;
      assert !HasDead(t.ns, k) && Named(t'.ns, i);
      assert HasKey(t'.ns, k);
      AtIs(t'.ns, i);
      if k != key {
        var j :| Named(t.ns, j) && t.ns[j].key == k;
        AtIs(t.ns, j);
        assert Value(t, k) != Nil;
      }
      assert k in cur';
      assert Value(t', k) != Nil;
    }
  }

  lemma DistinctChains(h: Hash, ns: seq<Node>, l: Links)
    requires Chains(h, ns, l)
    ensures Distinct(ns) && Linked(ns, l) && |l.root| == |l.rank| == |ns|
  {
  }

  lemma OffHome(h: Hash, ns: seq<Node>, l: Links, mp: int)
    requires Chains(h, ns, l) && Used(ns, mp) && Mp(h, ns[mp].key, |ns|) != mp
    ensures var o := Mp(h, ns[mp].key, |ns|);
      |l.root| == |l.rank| == |ns| && Linked(ns, l) && Used(ns, o) && Together(l, o, mp) && l.rank[o] < l.rank[mp]
  {
    assert HomedAt(h, ns, l, mp);
    RanksDiffer(ns, l, Mp(h, ns[mp].key, |ns|), mp);
  }

  lemma MoveStep(h: Hash, ns: seq<Node>, l: Links, mp: int, n: int, prev: int, key: TValue)
    requires Chains(h, ns, l) && Used(ns, mp) && 0 <= n < |ns| && !Used(ns, n)
      && mp == Mp(h, key, |ns|) != Mp(h, ns[mp].key, |ns|)
    requires Used(ns, prev) && ns[prev].next == mp && prev != mp && key != Nil && key != NaN && !HasKey(ns, key)
    ensures var ns' := Moved(ns, mp, n, prev, key);
      && |l.root| == |l.rank| == |ns| && Chains(h, ns', MovedLinks(ns, l, mp, n)) && Gains(ns, ns', key)
      && |ns'| == |ns| && ns'[mp].key == key && !ns'[mp].dead && (forall j :: Used(ns', j) <==> Used(ns, j) || j == n)
  {
    hide Chains, Linked, Homed, Distinct, HasKey, Gains, Moved, MovedLinks;
    DistinctChains(h, ns, l);
    MoveOk(h, ns, l, mp, n, prev, key);
    MovedGains(ns, mp, n, prev, key);
    MovedUsed(ns, mp, n, prev, key);
  }

  lemma MovedUsed(ns: seq<Node>, mp: int, n: int, prev: int, key: TValue)
    requires Used(ns, mp) && 0 <= n < |ns| && Used(ns, prev) && prev != mp && key != Nil
    ensures var ns' := Moved(ns, mp, n, prev, key);
      |ns'| == |ns| && ns'[mp].key == key && !ns'[mp].dead && forall j :: Used(ns', j) <==> Used(ns, j) || j == n
  {
  }

  lemma DistinctNodes(h: Hash, t: Tab, l: Links)
    requires Shape(h, t, l)
    ensures Distinct(t.ns) && Chains(h, t.ns, l) && forall i :: Used(t.ns, i) ==> !InRange(t.ns[i].key, 0, |t.arr|)
  {
    hide Homed, Linked, PowerSized, Pow2;
  }

  lemma RanksDiffer(ns: seq<Node>, l: Links, i: int, j: int)
    requires Linked(ns, l) && Used(ns, i) && Used(ns, j) && i != j && Together(l, i, j)
    ensures l.rank[i] != l.rank[j]
  {
  }

  lemma NotItself(ns: seq<Node>, l: Links, i: int)
    requires Linked(ns, l) && Used(ns, i)
    ensures ns[i].next != i
  {
    assert NextAt(ns, l, i);
  }

  function MaxRank(s: seq<int>): (m: int)
    ensures forall i :: 0 <= i < |s| ==> s[i] <= m
  {
    if s == [] then 0 else
    var m := MaxRank(s[..|s| - 1]);
    if s[|s| - 1] > m then s[|s| - 1] else m
  }

  /** The node of the key is not before n in its chain. */
  ghost predicate OnTheWay(ns: seq<Node>, l: Links, n: int, key: TValue) {
    |l.root| == |l.rank| == |ns| && Used(ns, n)
      && exists i :: Named(ns, i) && ns[i].key == key && Together(l, n, i) && l.rank[n] <= l.rank[i]
  }

  ghost function RankLeft(ns: seq<Node>, l: Links, n: int): int
    requires 0 <= n < |ns| && |l.rank| == |ns|
  {
    if Used(ns, n) then MaxRank(l.rank) - l.rank[n] + 1 else 0
  }

  lemma WalkOn(ns: seq<Node>, l: Links, n: int, key: TValue)
    requires Linked(ns, l) && 0 <= n < |ns| && (ns[n].key != key || ns[n].dead || key == NaN) && Distinct(ns)
    ensures var n' := ns[n].next;
      && (n' != NULL ==> 0 <= n' < |ns| && RankLeft(ns, l, n') < RankLeft(ns, l, n))
      && (OnTheWay(ns, l, n, key) ==> n' != NULL && OnTheWay(ns, l, n', key)) && 0 <= RankLeft(ns, l, n)
  {
    if Used(ns, n) {
      assert NextAt(ns, l, n);
      if OnTheWay(ns, l, n, key) {
        var i :| Named(ns, i) && ns[i].key == key && Together(l, n, i) && l.rank[n] <= l.rank[i];
        assert Together(l, ns[n].next, i);
      }
    }
  }
}
