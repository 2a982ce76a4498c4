/** Finding, closing and using upvalues, and whole runs of these operations. */
module UpvalState {
  import opened Shared
  import opened UpvalRing
  import opened UpvalCells

  /** The same upvalues; only links differ. */
  ghost predicate SameLevels(uv: seq<UpVal>, uv': seq<UpVal>) {
    |uv'| == |uv| && forall i :: 0 <= i < |uv| ==> SameUpval(uv[i], uv'[i])
  }

  ghost predicate SameNext(uv: seq<UpVal>, uv': seq<UpVal>) {
    |uv'| == |uv| && forall i :: 0 <= i < |uv| && uv[i].Open? ==> uv'[i].Open? && uv'[i].next == uv[i].next
  }

  lemma RingFrame(uv: seq<UpVal>, uv': seq<UpVal>, c: seq<int>)
    requires Ring(uv, c) && |uv| <= |uv'| && forall i :: i in c && 0 <= i < |uv| && uv[i].Open? ==>
      uv'[i].Open? && uv'[i].prev == uv[i].prev && uv'[i].unext == uv[i].unext
    ensures Ring(uv', c)
  {
    forall i | 0 <= i < |c| ensures RingAt(uv', c, i) {
      assert RingAt(uv, c, i) && c[i] in c && c[Succ(i, |c|)] in c;
    }
  }

  // ------------------------------------------------------- a new open upvalue

  /** The upvalues with a new one for a slot of thread t, linked in behind prev. */
  function Created(uv: seq<UpVal>, t: int, level: int, prev: int, next: int): seq<UpVal>
    requires -1 <= prev < |uv| && (prev != NULL ==> uv[prev].Open?)
  {
    var uv1 := uv + [Open(t, level, next, HEAD, HEAD)];
    if prev != NULL then uv1[prev := uv1[prev].(next := |uv|)] else uv1
  }

  /** Place k in the list is where a slot at level belongs. */
  ghost predicate PlaceFor(uv: seq<UpVal>, list: seq<int>, k: int, level: int) {
    && 0 <= k <= |list| && Descending(uv, list)
    && (forall j :: 0 <= j < k ==> uv[list[j]].level > level)
      && (forall j :: k <= j < |list| ==> uv[list[j]].level < level)
  }

  ghost function PrevOf(list: seq<int>, k: int): int
    requires 0 <= k <= |list|
  {
    if k == 0 then NULL else list[k - 1]
  }

  ghost function NextOf(list: seq<int>, k: int): int
    requires 0 <= k <= |list|
  {
    if k < |list| then list[k] else NULL
  }

  ghost function ListWith(list: seq<int>, k: int, u: int): seq<int>
    requires 0 <= k <= |list|
  {
    list[..k] + [u] + list[k..]
  }

  lemma ListWithIs(list: seq<int>, k: int, u: int)
    requires 0 <= k <= |list|
    ensures var l' := ListWith(list, k, u);
      && |l'| == |list| + 1 && (forall i :: 0 <= i < |l'| ==>
        l'[i] == if i < k then list[i] else if i == k then u else list[i - 1])
      && (forall i :: i in l' <==> i in list || i == u)
  {
    assert list == list[..k] + list[k..];
  }

  lemma CreatedList(uv: seq<UpVal>, p: int, list: seq<int>, k: nat, t: int, level: int)
    requires |uv| > 0 && OpenList(uv, p, list) && NoDup(list) && PlaceFor(uv, list, k, level)
    ensures -1 <= PrevOf(list, k) < |uv| && (PrevOf(list, k) != NULL ==> uv[PrevOf(list, k)].Open?)
    ensures var uv1 := Created(uv, t, level, PrevOf(list, k), NextOf(list, k));
      && OpenList(uv1, if k == 0 then |uv| else p, ListWith(list, k, |uv|)) && Inserted(uv, uv1, t, level)
      && forall i :: 0 <= i < |uv| && uv[i].Open? && i !in list ==> uv1[i].Open? && uv1[i].next == uv[i].next
  {
    var uv1 := Created(uv, t, level, PrevOf(list, k), NextOf(list, k));
    assert forall i :: i in list ==> 0 < i < |uv|;
    OpenListInsert(uv, p, list, k, uv1, |uv|);
  }

  lemma CreatedRing(uv: seq<UpVal>, list: seq<int>, ring: seq<int>, k: nat, t: int, level: int)
    requires Ring(uv, [HEAD] + ring) && PlaceFor(uv, list, k, level) && (forall i :: i in ring ==> 0 < i < |uv|)
      && |uv| > 0 && uv[HEAD].Open?
    ensures -1 <= PrevOf(list, k) < |uv| && (PrevOf(list, k) != NULL ==> uv[PrevOf(list, k)].Open?)
    ensures var uv1 := Created(uv, t, level, PrevOf(list, k), NextOf(list, k));
      && |uv1| == |uv| + 1 && uv1[HEAD].Open? && 0 <= uv1[HEAD].unext < |uv1| && uv1[|uv|].Open?
      && Ring(RingInserted(uv1, |uv|), [HEAD] + ([|uv|] + ring)) && SameNext(uv1, RingInserted(uv1, |uv|))
      && SameLevels(uv1, RingInserted(uv1, |uv|))
  {
    var uv1 := Created(uv, t, level, PrevOf(list, k), NextOf(list, k));
    RingFrame(uv, uv1, [HEAD] + ring);
    RingInsert(uv1, ring, |uv|);
    assert [HEAD, |uv|] + ring == [HEAD] + ([|uv|] + ring);
  }

  lemma CreatedOk(sizes: seq<int>, uv: seq<UpVal>, heads: seq<int>, l: Links, t: int, k: nat, level: int)
    requires Shape(sizes, uv, heads, l) && 0 <= t < |heads| == |l.lists| == |sizes| && 0 <= level < sizes[t]
      && PlaceFor(uv, l.lists[t], k, level)
    ensures var list := l.lists[t];
      -1 <= PrevOf(list, k) < |uv| && (PrevOf(list, k) != NULL ==> uv[PrevOf(list, k)].Open?)
    ensures var u, list := |uv|, l.lists[t];
      var uv1 := Created(uv, t, level, PrevOf(list, k), NextOf(list, k));
      && |uv1| == |uv| + 1 && uv1[HEAD].Open? && 0 <= uv1[HEAD].unext < |uv1| && uv1[u].Open?
      && Shape(sizes, RingInserted(uv1, u), if k == 0 then heads[t := u] else heads,
           Links(l.lists[t := ListWith(list, k, u)], [u] + l.ring))
      && Inserted(uv, RingInserted(uv1, u), t, level)
  {
    var u, list := |uv|, l.lists[t];
    ShapeParts(sizes, uv, heads, l, t);
    hide Shape, Ring, OpenList, Descending, NoDup, PlaceFor, Created, RingInserted, ListWith, SameNext, SameLevels,
      ThreadList;
    CreatedList(uv, heads[t], list, k, t, level);
    CreatedRing(uv, list, l.ring, k, t, level);
    var uv1 := Created(uv, t, level, PrevOf(list, k), NextOf(list, k));
    ShapeNew(sizes, uv, uv1, RingInserted(uv1, u), heads, l, t, k, level);
  }

  lemma ShapeParts(sizes: seq<int>, uv: seq<UpVal>, heads: seq<int>, l: Links, t: int)
    requires Shape(sizes, uv, heads, l) && 0 <= t < |heads|
    ensures |uv| > 0 && uv[HEAD].Open? && |sizes| == |heads| == |l.lists| && Ring(uv, [HEAD] + l.ring)
    ensures var p, list := heads[t], l.lists[t];
      ThreadList(uv, t, p, list, sizes[t]) && OpenList(uv, p, list) && NoDup(list) && Descending(uv, list)
    ensures (forall i :: i in l.ring ==> 0 < i < |uv|) && (forall i :: i in l.lists[t] ==> 0 < i < |uv|)
  {
    hide Ring, OpenList;
    assert ThreadList(uv, t, heads[t], l.lists[t], sizes[t]);
    assert forall i :: i in l.lists[t] ==> 0 < i < |uv|;
  }

  /** The list of a thread does not change when only other links do. */
  lemma OtherList(uv: seq<UpVal>, uv': seq<UpVal>, t: int, p: int, list: seq<int>, n: int)
    requires ThreadList(uv, t, p, list, n) && |uv| <= |uv'|
    requires forall i :: i in list && 0 < i < |uv| && uv[i].Open? ==>
      SameUpval(uv[i], uv'[i]) && uv'[i].next == uv[i].next
    ensures ThreadList(uv', t, p, list, n)
  {
    OpenListFrame(uv, uv', p, list);
    hide OpenList, NoDup;
    assert forall i :: 0 <= i < |list| ==> list[i] in list;
  }

  lemma ShapeNew(sizes: seq<int>, uv: seq<UpVal>, uv1: seq<UpVal>, uv2: seq<UpVal>, heads: seq<int>, l: Links, t: int,
      k: nat, level: int)
    requires Shape(sizes, uv, heads, l) && 0 <= t < |heads| == |l.lists| == |sizes| && 0 <= level < sizes[t]
      && k <= |l.lists[t]| && PlaceFor(uv, l.lists[t], k, level)
    requires OpenList(uv1, if k == 0 then |uv| else heads[t], ListWith(l.lists[t], k, |uv|))
      && Inserted(uv, uv1, t, level)
    requires forall i :: 0 <= i < |uv| && uv[i].Open? && i !in l.lists[t] ==> uv1[i].Open? && uv1[i].next == uv[i].next
    requires Ring(uv2, [HEAD] + ([|uv|] + l.ring)) && SameNext(uv1, uv2) && SameLevels(uv1, uv2)
    ensures Shape(sizes, uv2, if k == 0 then heads[t := |uv|] else heads,
        Links(l.lists[t := ListWith(l.lists[t], k, |uv|)], [|uv|] + l.ring))
    ensures Inserted(uv, uv2, t, level)
  {
    var u, list := |uv|, l.lists[t];
    var heads', l' := if k == 0 then heads[t := u] else heads, Links(l.lists[t := ListWith(list, k, u)], [u] + l.ring);
    InsertedThen(uv, uv1, uv2, t, level);
    hide Ring, PlaceFor, ListWith, OpenList, Descending, NoDup, SameLevels, ThreadList, AllListed, Inserted;
    ShapeParts(sizes, uv, heads, l, t);
    NewList(uv, uv1, uv2, heads[t], list, t, k, level, sizes[t]);
    forall r | 0 <= r < |heads| ensures ThreadList(uv2, r, heads'[r], l'.lists[r], sizes[r]) {
      if r != t {
        OtherThread(uv, uv1, uv2, list, t, level, r, heads[r], l.lists[r], sizes[r]);
      }
    }
    NewListed(sizes, uv, uv2, heads, l, t, k, level);
  }

  lemma InsertedThen(uv: seq<UpVal>, uv1: seq<UpVal>, uv2: seq<UpVal>, t: int, level: int)
    requires Inserted(uv, uv1, t, level) && SameLevels(uv1, uv2)
    ensures Inserted(uv, uv2, t, level) && (|uv| > 0 && uv[HEAD].Open? ==> uv2[HEAD].Open?)
  {
    forall i | 0 <= i < |uv| ensures SameUpval(uv[i], uv2[i]) {
      assert SameUpval(uv[i], uv1[i]) && SameUpval(uv1[i], uv2[i]);
    }
    if |uv| > 0 {
      assert SameUpval(uv[HEAD], uv2[HEAD]);
    }
  }

  lemma NewList(uv: seq<UpVal>, uv1: seq<UpVal>, uv2: seq<UpVal>, p: int, list: seq<int>, t: int, k: nat, level: int,
      n: int)
    requires ThreadList(uv, t, p, list, n) && k <= |list| && PlaceFor(uv, list, k, level) && 0 <= level < n && |uv| > 0
    requires OpenList(uv1, if k == 0 then |uv| else p, ListWith(list, k, |uv|)) && SameNext(uv1, uv2)
      && Inserted(uv, uv2, t, level) && |uv1| == |uv2|
    ensures ThreadList(uv2, t, if k == 0 then |uv| else p, ListWith(list, k, |uv|), n)
  {
    hide PlaceFor, ListWith, OpenList;
    OpenListFrame(uv1, uv2, if k == 0 then |uv| else p, ListWith(list, k, |uv|));
    ListInserted(uv, uv2, list, k, |uv|, t, level);
    ListWithIs(list, k, |uv|);
    hide NoDup;
    forall i | i in ListWith(list, k, |uv|)
        ensures 0 <= i < |uv2| && uv2[i].Open? && uv2[i].th == t && 0 <= uv2[i].level < n {
      if i != |uv| {
        var j :| 0 <= j < |list| && list[j] == i;
        assert SameUpval(uv[i], uv2[i]);
      }
    }
  }

  lemma OtherThread(uv: seq<UpVal>, uv1: seq<UpVal>, uv2: seq<UpVal>, list: seq<int>, t: int, level: int, r: int,
      p: int, other: seq<int>, n: int)
    requires ThreadList(uv, r, p, other, n) && r != t && Inserted(uv, uv2, t, level) && SameNext(uv1, uv2)
      && |uv1| == |uv2|
    requires forall i :: i in list ==> 0 < i < |uv| && uv[i].Open? && uv[i].th == t
    requires forall i :: 0 <= i < |uv| && uv[i].Open? && i !in list ==> uv1[i].Open? && uv1[i].next == uv[i].next
    ensures ThreadList(uv2, r, p, other, n)
  {
    forall i | i in other && 0 < i < |uv| && uv[i].Open? ensures SameUpval(uv[i], uv2[i]) && uv2[i].next == uv[i].next {
      assert i !in list && SameUpval(uv[i], uv2[i]);
    }
    OtherList(uv, uv2, r, p, other, n);
  }

  lemma NewListed(sizes: seq<int>, uv: seq<UpVal>, uv2: seq<UpVal>, heads: seq<int>, l: Links, t: int, k: nat,
      level: int)
    requires AllListed(uv, l) && 0 <= t < |l.lists| && k <= |l.lists[t]| && |uv| > 0 && Inserted(uv, uv2, t, level)
    ensures AllListed(uv2, Links(l.lists[t := ListWith(l.lists[t], k, |uv|)], [|uv|] + l.ring))
  {
    hide ListWith;
    var u := |uv|;
    var l' := Links(l.lists[t := ListWith(l.lists[t], k, u)], [u] + l.ring);
    ListWithIs(l.lists[t], k, u);
    forall i ensures i in l'.ring <==> 0 < i < |uv2| && uv2[i].Open? {
      if 0 < i < |uv| { assert SameUpval(uv[i], uv2[i]); }
    }
    forall i | 0 < i < |uv2| && uv2[i].Open? ensures Listed(uv2, l', i) {
      if i < |uv| {
        assert SameUpval(uv[i], uv2[i]);
        assert Listed(uv, l, i);
      }
    }
  }

  /** One more upvalue, open for a slot of thread t; the others as before but for links. */
  ghost predicate Inserted(uv: seq<UpVal>, uv': seq<UpVal>, t: int, level: int) {
    && |uv'| == |uv| + 1 && uv'[|uv|].Open? && uv'[|uv|].th == t && uv'[|uv|].level == level
    && forall i :: 0 <= i < |uv| ==> SameUpval(uv[i], uv'[i])
  }

  lemma ListInserted(uv: seq<UpVal>, uv': seq<UpVal>, list: seq<int>, k: nat, u: int, t: int, level: int)
    requires NoDup(list) && PlaceFor(uv, list, k, level) && u == |uv| > 0 && Inserted(uv, uv', t, level)
    ensures NoDup(ListWith(list, k, u)) && Descending(uv', ListWith(list, k, u))
  {
    var list' := ListWith(list, k, u);
    ListWithIs(list, k, u);
    hide ListWith;
    forall i, j | 0 <= i < j < |list'| ensures list'[i] != list'[j] && 0 < list'[i] < |uv'| && 0 < list'[j] < |uv'|
        && uv'[list'[i]].Open? && uv'[list'[j]].Open? && uv'[list'[i]].level > uv'[list'[j]].level {
      InsertedPair(uv, uv', list, k, u, t, level, i, j);
    }
    forall i | 0 <= i < |list'| ensures 0 < list'[i] < |uv'| && uv'[list'[i]].Open? {
    }
  }

  lemma InsertedPair(uv: seq<UpVal>, uv': seq<UpVal>, list: seq<int>, k: nat, u: int, t: int, level: int, i: int,
      j: int)
    requires NoDup(list) && PlaceFor(uv, list, k, level) && u == |uv| && u > 0 && Inserted(uv, uv', t, level)
      && 0 <= i < j <= |list|
    ensures var x, y := if i < k then list[i]
      else if i == k then u else list[i - 1], if j < k then list[j] else if j == k then u else list[j - 1];
      x != y && 0 < x < |uv'| && 0 < y < |uv'| && uv'[x].Open? && uv'[y].Open? && uv'[x].level > uv'[y].level
  {
  }

  // ------------------------------------------------------------------ closing

  /** The first open upvalue off both lists, with a value of its own. */
  function ClosedOne(uv: seq<UpVal>, u: int, v: Value): seq<UpVal>
    requires 0 <= u < |uv| && uv[u].Open? && 0 <= uv[u].unext < |uv| && 0 <= uv[u].prev < |uv|
  {
    RingRemoved(uv, u)[u := Closed(v)]
  }

  ghost function Without(r: seq<int>, u: int): seq<int> {
    if r == [] then [] else if r[0] == u then r[1..] else [r[0]] + Without(r[1..], u)
  }

  lemma {:induction false} WithoutIs(r: seq<int>, u: int, k: nat)
    requires k < |r| && r[k] == u && NoDup(r)
    ensures Without(r, u) == r[..k] + r[k + 1..]
    decreases |r|
  {
    if k > 0 {
      assert r[0] != r[k];
      WithoutIs(r[1..], u, k - 1);
      assert r[1..][..k - 1] == r[1..k] && r[1..][k..] == r[k + 1..];
    }
  }

  lemma CloseRing(uv: seq<UpVal>, ring: seq<int>, u: int, v: Value)
    requires Ring(uv, [HEAD] + ring) && u in ring
    ensures 0 < u < |uv| && uv[u].Open? && 0 <= uv[u].unext < |uv| && 0 <= uv[u].prev < |uv|
    ensures Ring(ClosedOne(uv, u, v), [HEAD] + Without(ring, u))
      && (forall i :: i in Without(ring, u) <==> i in ring && i != u)
    ensures |ClosedOne(uv, u, v)| == |uv| && ClosedOne(uv, u, v)[u] == Closed(v)
    ensures forall i :: 0 <= i < |uv| && i != u ==> ClosedLike(uv[i], ClosedOne(uv, u, v)[i])
  {
    hide *;
    var k :| 0 <= k < |ring| && ring[k] == u;
    RingNoDup(uv, ring);
    RingCut(uv, ring, u, k);
    WithoutIs(ring, u, k);
    WithoutIn(ring, u, k);
    CloseFrame(uv, u, v, [HEAD] + Without(ring, u));
  }

  lemma RingCut(uv: seq<UpVal>, ring: seq<int>, u: int, k: nat)
    requires Ring(uv, [HEAD] + ring) && k < |ring| && ring[k] == u
    ensures 0 < u < |uv| && uv[u].Open? && 0 <= uv[u].unext < |uv| && 0 <= uv[u].prev < |uv|
    ensures Ring(RingRemoved(uv, u), [HEAD] + (ring[..k] + ring[k + 1..])) && HEAD == 0
  {
    var c := [HEAD] + ring;
    assert c[k + 1] == u && c[0] == HEAD;
    RingRemove(uv, c, k + 1);
    RingAtHead(uv, c, k + 1);
    hide Ring, RingRemoved;
    assert c[..k + 1] + c[k + 2..] == [HEAD] + (ring[..k] + ring[k + 1..]);
  }

  lemma RingNoDup(uv: seq<UpVal>, ring: seq<int>)
    requires Ring(uv, [HEAD] + ring)
    ensures NoDup(ring)
  {
    var c := [HEAD] + ring;
    assert forall i :: 0 <= i < |ring| ==> ring[i] == c[i + 1];
  }

  lemma WithoutIn(ring: seq<int>, u: int, k: nat)
    requires k < |ring| && ring[k] == u && NoDup(ring) && Without(ring, u) == ring[..k] + ring[k + 1..]
    ensures forall i :: i in Without(ring, u) <==> i in ring && i != u
  {
    forall i ensures i in Without(ring, u) <==> i in ring && i != u {
      assert ring == ring[..k] + [u] + ring[k + 1..];
      assert forall j :: 0 <= j < k ==> ring[..k][j] != u;
    }
  }

  lemma CloseFrame(uv: seq<UpVal>, u: int, v: Value, c: seq<int>)
    requires 0 < u < |uv| && uv[u].Open? && 0 <= uv[u].unext < |uv| && 0 <= uv[u].prev < |uv|
      && Ring(RingRemoved(uv, u), c) && u !in c
    ensures Ring(ClosedOne(uv, u, v), c) && |ClosedOne(uv, u, v)| == |uv| && ClosedOne(uv, u, v)[u] == Closed(v)
    ensures forall i :: 0 <= i < |uv| && i != u ==> ClosedLike(uv[i], ClosedOne(uv, u, v)[i])
  {
    RingFrame(RingRemoved(uv, u), ClosedOne(uv, u, v), c);
  }

  lemma RingAtHead(uv: seq<UpVal>, c: seq<int>, k: nat)
    requires Ring(uv, c) && 0 < k < |c| && c[0] == HEAD
    ensures c[k] != HEAD && 0 < c[k] < |uv|
  {
    assert RingAt(uv, c, k);
  }

  /** The same but for ring links. */
  ghost predicate ClosedLike(x: UpVal, y: UpVal) { SameUpval(x, y) && (x.Open? ==> y.next == x.next) }

  lemma CloseOk(sizes: seq<int>, uv: seq<UpVal>, heads: seq<int>, l: Links, t: int, v: Value)
    requires Shape(sizes, uv, heads, l) && 0 <= t < |heads| && heads[t] != NULL
    ensures var p := heads[t];
      && 0 < p < |uv| && uv[p].Open? && 0 <= uv[p].unext < |uv| && 0 <= uv[p].prev < |uv|
      && t < |l.lists| && l.lists[t] != []
    ensures var p := heads[t];
      && Shape(sizes, ClosedOne(uv, p, v), heads[t := uv[p].next],
           Links(l.lists[t := l.lists[t][1..]], Without(l.ring, p)))
      && |ClosedOne(uv, p, v)| == |uv| && ClosedOne(uv, p, v)[p] == Closed(v)
      && forall i :: 0 <= i < |uv| && i != p ==> ClosedLike(uv[i], ClosedOne(uv, p, v)[i])
  {
    hide Ring, ClosedOne, Shape, Descending, Without, ThreadList;
    var p := heads[t];
    ShapeParts(sizes, uv, heads, l, t);
    assert l.lists[t] != [] && p == l.lists[t][0] && p in l.lists[t];
    InRing(sizes, uv, heads, l, t, p);
    CloseRing(uv, l.ring, p, v);
    CloseShape(sizes, uv, ClosedOne(uv, p, v), heads, l, t);
  }

  lemma InRing(sizes: seq<int>, uv: seq<UpVal>, heads: seq<int>, l: Links, t: int, u: int)
    requires Shape(sizes, uv, heads, l) && 0 <= t < |heads| && u in l.lists[t]
    ensures u in l.ring && 0 < u < |uv| && uv[u].Open? && uv[u].th == t
  {
    hide Ring, OpenList;
    assert ThreadList(uv, t, heads[t], l.lists[t], sizes[t]);
  }

  lemma CloseShape(sizes: seq<int>, uv: seq<UpVal>, uv': seq<UpVal>, heads: seq<int>, l: Links, t: int)
    requires Shape(sizes, uv, heads, l) && 0 <= t < |heads| == |l.lists| && l.lists[t] != []
    requires var p := heads[t];
      && 0 < p < |uv| == |uv'| && p == l.lists[t][0] && uv[p].Open? && !uv'[p].Open?
      && uv[p].th == t && Ring(uv', [HEAD] + Without(l.ring, p))
      && (forall i :: i in Without(l.ring, p) <==> i in l.ring && i != p)
      && forall i :: 0 <= i < |uv| && i != p ==> ClosedLike(uv[i], uv'[i])
    ensures var p := heads[t];
      Shape(sizes, uv', heads[t := uv[p].next], Links(l.lists[t := l.lists[t][1..]], Without(l.ring, p)))
  {
    var p := heads[t];
    var heads', l' := heads[t := uv[p].next], Links(l.lists[t := l.lists[t][1..]], Without(l.ring, p));
    hide Ring, Without, Descending, NoDup, OpenList, AllListed, ThreadList;
    assert ClosedLike(uv[HEAD], uv'[HEAD]);
    forall r | 0 <= r < |heads| ensures ThreadList(uv', r, heads'[r], l'.lists[r], sizes[r]) {
      assert ThreadList(uv, r, heads[r], l.lists[r], sizes[r]);
      if r == t {
        RestList(uv, uv', t, p, l.lists[t], sizes[t]);
      } else {
        ApartList(uv, uv', t, p, r, heads[r], l.lists[r], sizes[r]);
      }
    }
    assert ThreadList(uv, t, p, l.lists[t], sizes[t]);
    RestListed(uv, uv', t, p, l, sizes[t]);
  }

  lemma RestList(uv: seq<UpVal>, uv': seq<UpVal>, t: int, p: int, list: seq<int>, n: int)
    requires ThreadList(uv, t, p, list, n) && list != [] && p == list[0] && 0 < p < |uv| == |uv'| && uv[p].Open?
    requires forall i :: 0 <= i < |uv| && i != p ==> ClosedLike(uv[i], uv'[i])
    ensures ThreadList(uv', t, uv[p].next, list[1..], n)
  {
    RestOf(list, p);
    hide NoDup;
    OpenListFrame(uv, uv', uv[p].next, list[1..]);
    hide OpenList;
    forall i | i in list[1..] ensures 0 < i < |uv| && uv[i].Open? && ClosedLike(uv[i], uv'[i]) {
      assert i in list && i != p;
      var j :| 0 <= j < |list| && list[j] == i;
    }
    assert forall j :: 0 <= j < |list[1..]| ==> list[1..][j] == list[j + 1] && list[1..][j] in list[1..];
  }

  lemma ApartList(uv: seq<UpVal>, uv': seq<UpVal>, t: int, p: int, r: int, q: int, list: seq<int>, n: int)
    requires ThreadList(uv, r, q, list, n) && r != t && 0 < p < |uv| == |uv'| && uv[p].Open? && uv[p].th == t
    requires forall i :: 0 <= i < |uv| && i != p ==> ClosedLike(uv[i], uv'[i])
    ensures ThreadList(uv', r, q, list, n)
  {
    assert p !in list;
    forall i | i in list && 0 < i < |uv| && uv[i].Open? ensures SameUpval(uv[i], uv'[i]) && uv'[i].next == uv[i].next {
      assert ClosedLike(uv[i], uv'[i]);
    }
    OtherList(uv, uv', r, q, list, n);
  }

  lemma RestListed(uv: seq<UpVal>, uv': seq<UpVal>, t: int, p: int, l: Links, n: int)
    requires AllListed(uv, l) && 0 <= t < |l.lists| && ThreadList(uv, t, p, l.lists[t], n) && l.lists[t] != []
      && p == l.lists[t][0] && 0 < p < |uv| == |uv'| && uv[p].Open? && !uv'[p].Open?
    requires forall i :: i in Without(l.ring, p) <==> i in l.ring && i != p
    requires forall i :: 0 <= i < |uv| && i != p ==> ClosedLike(uv[i], uv'[i])
    ensures AllListed(uv', Links(l.lists[t := l.lists[t][1..]], Without(l.ring, p)))
  {
    hide Without, OpenList;
    RestOf(l.lists[t], p);
    hide NoDup;
    var l' := Links(l.lists[t := l.lists[t][1..]], Without(l.ring, p));
    forall i ensures i in l'.ring <==> 0 < i < |uv'| && uv'[i].Open? {
      if 0 < i < |uv| && i != p { assert ClosedLike(uv[i], uv'[i]); }
    }
    forall i | 0 < i < |uv'| && uv'[i].Open? ensures Listed(uv', l', i) {
      assert i != p && ClosedLike(uv[i], uv'[i]);
      assert Listed(uv, l, i);
    }
  }

  lemma RestOf(list: seq<int>, p: int)
    requires list != [] && p == list[0] && NoDup(list)
    ensures NoDup(list[1..]) && forall i :: i in list[1..] <==> i in list && i != p
  {
    assert list == [p] + list[1..];
  }

  // ---------------------------------------------------------------- the machine

  class LuaState {
    /** The stacks of the threads, and for each of them its open upvalues. */
    var stacks: seq<seq<Value>>
    var openupval: seq<int>
    var uv: seq<UpVal>
    /** The upvalues of the closures made so far. */
    var ups: seq<int>
    ghost var links: Links
    ghost var abs: Cells

    ghost predicate Valid()
      reads this
    {
      Shape(Sizes(stacks), uv, openupval, links) && Refines(stacks, uv, ups, abs)
    }

    constructor ()
      ensures Valid() && stacks == [] && abs == Cells([], [], [])
    {
      stacks, openupval := [], [];
      uv := [Open(-1, -1, NULL, HEAD, HEAD)];
      ups := [];
      links := Links([], []);
      abs := Cells([], [], []);
    }

    /** luaF_findupval: the one open upvalue for the slot, made if there is none. */
    method FindUpval(t: int, level: int) returns (u: int)
      requires Valid() && In(stacks, t, level)
      modifies this`uv, this`openupval, this`links
      ensures Valid() && 0 < u < |uv| && uv[u].Open? && uv[u].th == t && uv[u].level == level
      ensures forall x :: 0 < x < |uv| && uv[x].Open? && uv[x].th == t && uv[x].level == level ==> x == u
    {
      LengthsAgree(Sizes(stacks), uv, openupval, links);
      hide Shape, Refines, Ring, NoDup, Descending, ThreadList, AllListed, OpenList;
      ShapeParts(Sizes(stacks), uv, openupval, links, t);
      OneForLevel(Sizes(stacks), uv, openupval, links, t);
      var prev, p := NULL, openupval[t];
      ghost var k, list := 0, links.lists[t];
      WalkStart(uv, openupval[t], list, level);
      while p != NULL && uv[p].level >= level
        invariant Walk(uv, list, k, level, prev, p)
        decreases |list| - k
        modifies {}
      {
        if uv[p].level == level {
          u := p;
          WalkAt(Sizes(stacks), uv, openupval, links, t, k, level, prev, p);
          OnlyOne(uv, t, u);
          return;
        }
        WalkNext(uv, openupval[t], list, k, level, prev, p);
        prev, p := p, uv[p].next;
        k := k + 1;
      }
      WalkDone(uv, list, k, level, prev, p);
      u := NewUpval(t, level, prev, p, k);
    }

    /** A new open upvalue, linked in between prev and p and in the ring. */
    method NewUpval(t: int, level: int, prev: int, p: int, ghost k: nat) returns (u: int)
      requires Valid() && In(stacks, t, level) && t < |links.lists| && k <= |links.lists[t]|
        && PlaceFor(uv, links.lists[t], k, level)
        && prev == PrevOf(links.lists[t], k) && p == NextOf(links.lists[t], k)
      modifies this`uv, this`openupval, this`links
      ensures Valid() && 0 < u < |uv| && uv[u].Open? && uv[u].th == t && uv[u].level == level
      ensures forall x :: 0 < x < |uv| && uv[x].Open? && uv[x].th == t && uv[x].level == level ==> x == u
    {
      hide Shape, Refines, PlaceFor, RingInserted, Created, ListWith, Inserted;
      LengthsAgree(Sizes(stacks), uv, openupval, links);
      CreatedOk(Sizes(stacks), uv, openupval, links, t, k, level);
      PrevIsNull(Sizes(stacks), uv, openupval, links, t, k);
      ghost var uv0, list := uv, links.lists[t];
      u := |uv|;
      uv := RingInserted(Created(uv, t, level, prev, p), u);
      if prev == NULL {
        openupval := openupval[t := u];
      }
      links := Links(links.lists[t := ListWith(list, k, u)], [u] + links.ring);
      NewRefines(stacks, uv0, uv, ups, abs, t, level);
      NewIs(uv0, uv, t, level);
      OneForLevel(Sizes(stacks), uv, openupval, links, t);
      OnlyOne(uv, t, u);
    }

    /** luaF_close: upvalues for slots of thread t from level on get values of their own. */
    method Close(t: int, level: nat)
      requires Valid() && 0 <= t < |stacks|
      modifies this`uv, this`openupval, this`links, this`abs
      ensures Valid() && abs == Renewed(old(abs), stacks[t], t, level)
      ensures forall u :: 0 < u < |uv| && uv[u].Open? && uv[u].th == t ==> uv[u].level < level
    {
      ghost var uv0 := uv;
      LengthsAgree(Sizes(stacks), uv, openupval, links);
      hide Shape, Refines, ClosedOne, Without, Renewed, Closing;
      ClosingStart(uv, stacks[t], t, level);
      FirstOpen(Sizes(stacks), uv, openupval, links, t);
      while openupval[t] != NULL && uv[openupval[t]].level >= level
        invariant Shape(Sizes(stacks), uv, openupval, links) && Closing(uv0, uv, stacks[t], t, level)
          && abs == old(abs)
        invariant |openupval| == |links.lists| == |stacks|
        invariant FirstFits(uv, openupval[t], t, |stacks[t]|)
        decreases |links.lists[t]|
      {
        CloseFirst(t, level, uv0);
      }
      ClosingEnd(Sizes(stacks), uv0, uv, openupval, links, stacks[t], t, level);
      RenewRefines(stacks, uv0, uv, ups, abs, t, level);
      abs := Renewed(abs, stacks[t], t, level);
    }

    /** The body of the loop of luaF_close. */
    method CloseFirst(t: int, level: nat, ghost uv0: seq<UpVal>)
      requires Shape(Sizes(stacks), uv, openupval, links) && 0 <= t < |stacks| == |openupval| == |links.lists|
        && Closing(uv0, uv, stacks[t], t, level)
      requires openupval[t] != NULL && FirstFits(uv, openupval[t], t, |stacks[t]|) && level <= uv[openupval[t]].level
      modifies this`uv, this`openupval, this`links
      ensures Shape(Sizes(stacks), uv, openupval, links) && Closing(uv0, uv, stacks[t], t, level)
      ensures |openupval| == |links.lists| == |stacks| && |links.lists[t]| < |old(links).lists[t]|
      ensures FirstFits(uv, openupval[t], t, |stacks[t]|)
    {
      hide Shape, ClosedOne, Without, Closing;
      var u := openupval[t];
      var v := stacks[t][uv[u].level];
      CloseOk(Sizes(stacks), uv, openupval, links, t, v);
      ClosingNext(uv0, uv, stacks[t], t, level, u);
      openupval := openupval[t := uv[u].next];
      links := Links(links.lists[t := links.lists[t][1..]], Without(links.ring, u));
      uv := ClosedOne(uv, u, v);
      FirstOpen(Sizes(stacks), uv, openupval, links, t);
    }

    // ------------------------------------------------------------ instructions

    /** A closure captures a local variable (OP_CLOSURE with OP_MOVE). */
    method Capture(t: int, i: int) returns (h: int)
      requires Valid() && In(stacks, t, i)
      modifies this
      ensures Valid() && h == |old(abs).up| && stacks == old(stacks) && In(old(abs).slot, t, i)
        && abs == old(abs).(up := old(abs).up + [old(abs).slot[t][i]])
    {
      hide Shape;
      var u := FindUpval(t, i);
      CaptureRefines(stacks, uv, ups, abs, t, i, u);
      hide Refines;
      h := |ups|;
      SizesOk(stacks, uv, ups, abs);
      abs := abs.(up := abs.up + [abs.slot[t][i]]);
      ups := ups + [u];
    }

    /** A closure captures a variable of the enclosing one (OP_CLOSURE with OP_GETUPVAL). */
    method CaptureUp(g: int) returns (h: int)
      requires Valid() && 0 <= g < |abs.up|
      modifies this
      ensures Valid() && h == |old(abs).up| && stacks == old(stacks)
        && abs == old(abs).(up := old(abs).up + [old(abs).up[g]])
    {
      hide Shape;
      AliasRefines(stacks, uv, ups, abs, g);
      h := |ups|;
      abs := abs.(up := abs.up + [abs.up[g]]);
      ups := ups + [ups[g]];
    }

    /** OP_GETUPVAL: the upvalue may be open for a slot of another thread. */
    method GetUp(h: int) returns (v: Value)
      requires Valid() && 0 <= h < |abs.up|
      ensures 0 <= abs.up[h] < |abs.cells| && v == CellOf(abs, h)
    {
      hide Shape;
      assert UpOk(uv, ups[h], abs, abs.up[h]);
      var x := uv[ups[h]];
      v := if x.Open? then stacks[x.th][x.level] else x.value;
    }

    /** OP_SETUPVAL */
    method SetUp(h: int, v: Value)
      requires Valid() && 0 <= h < |abs.up|
      modifies this
      ensures Valid() && Sizes(stacks) == Sizes(old(stacks)) && abs == SetCell(old(abs), old(abs).up[h], v)
    {
      SizesOk(stacks, uv, ups, abs);
      SetUpRefines(stacks, uv, ups, abs, h, v);
      hide Refines, Shape;
      ghost var a := SetCell(abs, abs.up[h], v);
      var u := ups[h];
      if uv[u].Open? {
        SizesSame(stacks, uv[u].th, uv[u].level, v);
        stacks := SetAt(stacks, uv[u].th, uv[u].level, v);
      } else {
        SetClosedShape(Sizes(stacks), uv, openupval, links, u, v);
        uv := uv[u := Closed(v)];
      }
      abs := a;
    }

    method SetSlot(t: int, i: int, v: Value)
      requires Valid() && In(stacks, t, i)
      modifies this
      ensures Valid() && Sizes(stacks) == Sizes(old(stacks)) && In(old(abs).slot, t, i)
        && abs == SetCell(old(abs), old(abs).slot[t][i], v)
    {
      SetRefines(stacks, uv, ups, abs, t, i, v);
      ghost var a := SetCell(abs, abs.slot[t][i], v);
      hide Refines, Shape;
      SizesSame(stacks, t, i, v);
      stacks := SetAt(stacks, t, i, v);
      abs := a;
    }

    /** lua_newthread */
    method NewThread()
      requires Valid()
      modifies this
      ensures Valid() && stacks == old(stacks) + [[]] && abs == Started(old(abs))
    {
      StartRefines(stacks, uv, ups, abs);
      StartShape(Sizes(stacks), uv, openupval, links);
      hide Refines, Shape;
      assert Sizes(stacks + [[]]) == Sizes(stacks) + [0];
      stacks, openupval := stacks + [[]], openupval + [NULL];
      links := Links(links.lists + [[]], links.ring);
      abs := Started(abs);
    }

    method Push(t: int, v: Value)
      requires Valid() && 0 <= t < |stacks|
      modifies this
      ensures Valid() && stacks == old(stacks)[t := old(stacks)[t] + [v]] && abs == Pushed(old(abs), t, v)
    {
      SizesOk(stacks, uv, ups, abs);
      LengthsAgree(Sizes(stacks), uv, openupval, links);
      PushRefines(stacks, uv, ups, abs, t, v);
      hide Refines, Shape, Pushed;
      ResizeShape(Sizes(stacks), uv, openupval, links, t, |stacks[t]| + 1);
      assert Sizes(stacks[t := stacks[t] + [v]]) == Sizes(stacks)[t := |stacks[t]| + 1];
      stacks := stacks[t := stacks[t] + [v]];
      abs := Pushed(abs, t, v);
    }

    /** Leaving a function or a block, or freeing a thread (level 0): its upvalues are closed, then
        its slots go. */
    method Leave(t: int, level: nat)
      requires Valid() && 0 <= t < |stacks| && level <= |stacks[t]|
      modifies this
      ensures Valid() && stacks == old(stacks)[t := old(stacks)[t][..level]]
      ensures abs == Left(Renewed(old(abs), old(stacks)[t], t, level), t, level)
    {
      hide Renewed, Shape, Refines, Left;
      Close(t, level);
      LeaveRefines(stacks, uv, ups, abs, t, level);
      LengthsAgree(Sizes(stacks), uv, openupval, links);
      ResizeShape(Sizes(stacks), uv, openupval, links, t, level);
      assert Sizes(stacks[t := stacks[t][..level]]) == Sizes(stacks)[t := level];
      stacks := stacks[t := stacks[t][..level]];
      abs := Left(abs, t, level);
    }
  }

  lemma LengthsAgree(sizes: seq<int>, uv: seq<UpVal>, heads: seq<int>, l: Links)
    requires Shape(sizes, uv, heads, l)
    ensures |uv| > 0 && |sizes| == |heads| == |l.lists|
  {
  }

  lemma SizesSame(stacks: seq<seq<Value>>, t: int, i: int, v: Value)
    requires In(stacks, t, i)
    ensures Sizes(SetAt(stacks, t, i, v)) == Sizes(stacks)
  {
  }

  function Started(a: Cells): Cells { a.(slot := a.slot + [[]]) }

  function Pushed(a: Cells, t: int, v: Value): Cells {
    if 0 <= t < |a.slot| then Cells(a.cells + [v], a.slot[t := a.slot[t] + [|a.cells|]], a.up) else a
  }

  function Left(a: Cells, t: int, level: nat): Cells {
    if 0 <= t < |a.slot| && level <= |a.slot[t]| then a.(slot := a.slot[t := a.slot[t][..level]]) else a
  }

  lemma StartRefines(stacks: seq<seq<Value>>, uv: seq<UpVal>, ups: seq<int>, a: Cells)
    requires Refines(stacks, uv, ups, a)
    ensures Refines(stacks + [[]], uv, ups, Started(a))
  {
    var a' := Started(a);
    assert forall t, i :: In(a'.slot, t, i) <==> In(a.slot, t, i);
    forall h | 0 <= h < |ups| ensures UpOk(uv, ups[h], a', a'.up[h]) {
      assert UpOk(uv, ups[h], a, a.up[h]);
    }
  }

  lemma StartShape(sizes: seq<int>, uv: seq<UpVal>, heads: seq<int>, l: Links)
    requires Shape(sizes, uv, heads, l)
    ensures Shape(sizes + [0], uv, heads + [NULL], Links(l.lists + [[]], l.ring))
  {
    hide Ring;
    var sizes', heads', l' := sizes + [0], heads + [NULL], Links(l.lists + [[]], l.ring);
    forall t | 0 <= t < |heads'| ensures ThreadList(uv, t, heads'[t], l'.lists[t], sizes'[t]) {
      if t < |heads| { assert ThreadList(uv, t, heads[t], l.lists[t], sizes[t]); }
    }
    hide ThreadList;
    forall i | 0 < i < |uv| && uv[i].Open? ensures Listed(uv, l', i) {
      assert Listed(uv, l, i);
    }
  }

  lemma PushRefines(stacks: seq<seq<Value>>, uv: seq<UpVal>, ups: seq<int>, a: Cells, t: int, v: Value)
    requires Refines(stacks, uv, ups, a) && 0 <= t < |stacks|
    ensures Refines(stacks[t := stacks[t] + [v]], uv, ups, Pushed(a, t, v))
  {
    var a' := Pushed(a, t, v);
    assert forall r, i :: In(a'.slot, r, i) ==>
      if r == t && i == |a.slot[t]| then a'.slot[r][i] == |a.cells|
      else In(a.slot, r, i) && a'.slot[r][i] == a.slot[r][i];
    forall h | 0 <= h < |ups| ensures UpOk(uv, ups[h], a', a'.up[h]) {
      assert UpOk(uv, ups[h], a, a.up[h]);
    }
  }

  lemma ResizeShape(sizes: seq<int>, uv: seq<UpVal>, heads: seq<int>, l: Links, t: int, n: nat)
    requires Shape(sizes, uv, heads, l) && 0 <= t < |heads| == |sizes|
    requires n >= sizes[t] || forall u :: 0 < u < |uv| && uv[u].Open? && uv[u].th == t ==> uv[u].level < n
    ensures Shape(sizes[t := n], uv, heads, l)
  {
    hide Ring, AllListed, OpenList, NoDup;
    var sizes' := sizes[t := n];
    forall r | 0 <= r < |heads| ensures ThreadList(uv, r, heads[r], l.lists[r], sizes'[r]) {
      assert ThreadList(uv, r, heads[r], l.lists[r], sizes[r]);
    }
  }

  lemma LeaveRefines(stacks: seq<seq<Value>>, uv: seq<UpVal>, ups: seq<int>, a: Cells, t: int, level: nat)
    requires Refines(stacks, uv, ups, a) && 0 <= t < |stacks| && level <= |stacks[t]|
    requires forall u :: 0 < u < |uv| && uv[u].Open? && uv[u].th == t ==> uv[u].level < level
    ensures Refines(stacks[t := stacks[t][..level]], uv, ups, Left(a, t, level))
  {
    var a' := Left(a, t, level);
    assert forall r, i :: In(a'.slot, r, i) ==> In(a.slot, r, i) && a'.slot[r][i] == a.slot[r][i];
    forall h | 0 <= h < |ups| ensures UpOk(uv, ups[h], a', a'.up[h]) {
      assert UpOk(uv, ups[h], a, a.up[h]);
    }
  }

  // --------------------------------------------------------------------- runs

  /** An operation on the stack of thread t, or on the variables that closures have captured. */
  datatype Op = Thread | Local(t: int, v: Value) | Assign(t: int, i: int, v: Value) | Get(t: int, i: int)
              | CaptureLocal(t: int, i: int) | CaptureOuter(h: int) | Read(h: int) | Write(h: int, v: Value)
              | CloseFrom(t: int, level: nat) | LeaveTo(t: int, level: nat)

  /** The state of the simple picture: cells, and the values of the slots. */
  datatype Model = Model(a: Cells, stacks: seq<seq<Value>>)

  predicate Possible(m: Model, op: Op) {
    match op
    case Thread => true
    case Local(t, _) => 0 <= t < |m.stacks|
    case Assign(t, i, _) => In(m.stacks, t, i) && In(m.a.slot, t, i)
    case Get(t, i) => In(m.stacks, t, i)
    case CaptureLocal(t, i) => In(m.stacks, t, i) && In(m.a.slot, t, i)
    case CaptureOuter(h) => 0 <= h < |m.a.up|
    case Read(h) => 0 <= h < |m.a.up| && 0 <= m.a.up[h] < |m.a.cells|
    case Write(h, _) => 0 <= h < |m.a.up|
    case CloseFrom(t, _) => 0 <= t < |m.stacks|
    case LeaveTo(t, level) => 0 <= t < |m.stacks| && level <= |m.stacks[t]|
  }

  function Values(a: Cells): seq<seq<Value>> {
    seq(|a.slot|, t requires 0 <= t < |a.slot| =>
      seq(|a.slot[t]|, i requires 0 <= i < |a.slot[t]| =>
        if 0 <= a.slot[t][i] < |a.cells| then a.cells[a.slot[t][i]] else 0))
  }

  function Of(a: Cells): Model { Model(a, Values(a)) }

  /** One operation on cells; what it answers. Operations that make no sense are skipped. */
  function Do(m: Model, op: Op): (Model, Value) {
    if !Possible(m, op) then (m, 0) else
    match op
    case Thread => (Of(Started(m.a)), 0)
    case Local(t, v) => (Of(Pushed(m.a, t, v)), 0)
    case Assign(t, i, v) => (Of(SetCell(m.a, m.a.slot[t][i], v)), 0)
    case Get(t, i) => (m, m.stacks[t][i])
    case CaptureLocal(t, i) => (Model(m.a.(up := m.a.up + [m.a.slot[t][i]]), m.stacks), |m.a.up|)
    case CaptureOuter(h) => (Model(m.a.(up := m.a.up + [m.a.up[h]]), m.stacks), |m.a.up|)
    case Read(h) => (m, CellOf(m.a, h))
    case Write(h, v) => (Of(SetCell(m.a, m.a.up[h], v)), 0)
    case CloseFrom(t, level) => (Model(Renewed(m.a, m.stacks[t], t, level), m.stacks), 0)
    case LeaveTo(t, level) => (Of(Left(Renewed(m.a, m.stacks[t], t, level), t, level)), 0)
  }

  function DoAll(m: Model, ops: seq<Op>): (Model, seq<Value>) {
    if ops == [] then (m, []) else
    var (m1, vs) := DoAll(m, ops[..|ops| - 1]);
    var (m2, v) := Do(m1, ops[|ops| - 1]);
    (m2, vs + [v])
  }

  /** The slots have the values of their cells. */
  lemma StacksAreValues(stacks: seq<seq<Value>>, uv: seq<UpVal>, ups: seq<int>, a: Cells)
    requires Refines(stacks, uv, ups, a)
    ensures stacks == Values(a)
  {
    var vs := Values(a);
    forall t | 0 <= t < |stacks| ensures stacks[t] == vs[t] {
      assert forall i :: 0 <= i < |stacks[t]| ==> In(a.slot, t, i);
    }
  }

  /** What closures that share a variable see: a value written to it, and to no other. */
  lemma WriteIsRead(m: Model, h: int, g: int, v: Value)
    requires Possible(m, Read(h)) && Possible(m, Read(g))
    ensures var m' := Do(m, Write(h, v)).0;
      Do(m', Read(g)).1 == if m.a.up[g] == m.a.up[h] then v else m.a.cells[m.a.up[g]]
  {
  }

  /** A variable that has been captured is the local variable as long as that lives: its value is
      read, and a later assignment is seen. */
  lemma CapturedIsLocal(m: Model, t: int, i: int, v: Value)
    requires m == Of(m.a) && Possible(m, CaptureLocal(t, i)) && 0 <= m.a.slot[t][i] < |m.a.cells|
    ensures var m1, h := Do(m, CaptureLocal(t, i)).0, |m.a.up|;
      && Do(m1, Read(h)).1 == Do(m, Get(t, i)).1
      && Do(Do(m1, Assign(t, i, v)).0, Read(h)).1 == v
      && Do(Do(m1, Write(h, v)).0, Get(t, i)).1 == v
  {
    assert In(Values(m.a), t, i);
  }

  /** When the slot is given up the captured variable keeps its value, and is a variable of its own:
      a later assignment to the slot is not seen. */
  lemma ClosedIsKept(m: Model, t: int, level: nat, i: int, h: int, v: Value)
    requires m == Of(m.a) && Possible(m, Read(h)) && Possible(m, CloseFrom(t, level))
    requires level <= i < |m.stacks[t]|
    ensures var m1 := Do(m, CloseFrom(t, level)).0;
      && Do(m1, Read(h)).1 == Do(m, Read(h)).1
      && Do(Do(m1, Assign(t, i, v)).0, Read(h)).1 == Do(m, Read(h)).1
  {
  }

  /** Every run of the machine, over any number of threads, gives the answers of the run on cells. */
  method Run(ops: seq<Op>) returns (out: seq<Value>, s: LuaState)
    ensures var start := Model(Cells([], [], []), []);
      out == DoAll(start, ops).1 && s.Valid() && Model(s.abs, s.stacks) == DoAll(start, ops).0
  {
    s := new LuaState();
    ghost var start := Model(Cells([], [], []), []);
    out := [];
    hide Shape, Refines, Do, Values;
    assert ops[..0] == [];
    for i := 0 to |ops|
      invariant fresh(s) && s.Valid() && DoAll(start, ops[..i]) == (Model(s.abs, s.stacks), out)
    {
      assert ops[..i + 1][..i] == ops[..i] && ops[..i + 1][i] == ops[i];
      var v := Step(s, ops[i]);
      out := out + [v];
    }
    assert ops[..|ops|] == ops;
  }

  method Step(s: LuaState, op: Op) returns (v: Value)
    requires s.Valid()
    modifies s
    ensures s.Valid() && Do(Model(old(s.abs), old(s.stacks)), op) == (Model(s.abs, s.stacks), v)
  {
    hide Shape, Refines, Do;
    match op {
      case CaptureOuter(_) => v := StepCaptured(s, op);
      case Read(_) => v := StepCaptured(s, op);
      case Write(_, _) => v := StepCaptured(s, op);
      case _ => v := StepOnStack(s, op);
    }
  }

  method StepCaptured(s: LuaState, op: Op) returns (v: Value)
    requires s.Valid() && (op.CaptureOuter? || op.Read? || op.Write?)
    modifies s
    ensures s.Valid() && Do(Model(old(s.abs), old(s.stacks)), op) == (Model(s.abs, s.stacks), v)
  {
    v := 0;
    SizesOk(s.stacks, s.uv, s.ups, s.abs);
    hide Shape, Refines, Renewed, Values, Pushed, Left, Started, Sizes, SetCell;
    match op {
      case CaptureOuter(h) =>
        if 0 <= h < |s.ups| {
          v := s.CaptureUp(h);
        }
      case Read(h) =>
        if 0 <= h < |s.ups| {
          v := s.GetUp(h);
        }
      case Write(h, x) =>
        if 0 <= h < |s.ups| {
          s.SetUp(h, x);
        }
    }
    StacksAreValues(s.stacks, s.uv, s.ups, s.abs);
  }

  method StepOnStack(s: LuaState, op: Op) returns (v: Value)
    requires s.Valid() && !op.CaptureOuter? && !op.Read? && !op.Write?
    modifies s
    ensures s.Valid() && Do(Model(old(s.abs), old(s.stacks)), op) == (Model(s.abs, s.stacks), v)
  {
    v := 0;
    SizesOk(s.stacks, s.uv, s.ups, s.abs);
    hide Shape, Refines, Renewed, Values, Pushed, Left, Started, Sizes, SetCell, CellOf;
    match op {
      case Thread =>
        s.NewThread();
      case Local(t, x) =>
        if 0 <= t < |s.stacks| {
          s.Push(t, x);
        }
      case Assign(t, i, x) =>
        if 0 <= t < |s.stacks| && 0 <= i < |s.stacks[t]| {
          s.SetSlot(t, i, x);
        }
      case Get(t, i) =>
        if 0 <= t < |s.stacks| && 0 <= i < |s.stacks[t]| {
          v := s.stacks[t][i];
        }
      case CaptureLocal(t, i) =>
        if 0 <= t < |s.stacks| && 0 <= i < |s.stacks[t]| {
          v := s.Capture(t, i);
        }
      case CloseFrom(t, level) =>
        if 0 <= t < |s.stacks| {
          s.Close(t, level);
        }
      case LeaveTo(t, level) =>
        if 0 <= t < |s.stacks| && level <= |s.stacks[t]| {
          s.Leave(t, level);
        }
    }
    StacksAreValues(s.stacks, s.uv, s.ups, s.abs);
  }

  lemma SizesOk(stacks: seq<seq<Value>>, uv: seq<UpVal>, ups: seq<int>, a: Cells)
    requires Refines(stacks, uv, ups, a)
    ensures |a.slot| == |stacks| && (forall t :: 0 <= t < |stacks| ==> |a.slot[t]| == |stacks[t]|)
    ensures |a.up| == |ups| && (forall h :: 0 <= h < |ups| ==> 0 <= a.up[h] < |a.cells|)
  {
    forall h | 0 <= h < |ups| ensures 0 <= a.up[h] < |a.cells| {
      assert UpOk(uv, ups[h], a, a.up[h]);
    }
  }

  /** uv is uv0 with some of the upvalues of thread t from level on closed. */
  ghost predicate Closing(uv0: seq<UpVal>, uv: seq<UpVal>, stack: seq<Value>, t: int, level: nat) {
    |uv| == |uv0| && forall u :: 0 < u < |uv0| ==> ClosingAt(uv0[u], uv[u], stack, t, level)
  }

  ghost predicate ClosingAt(x: UpVal, y: UpVal, stack: seq<Value>, t: int, level: nat) {
    SameUpval(x, y) || (x.Open? && x.th == t && level <= x.level < |stack| && y == Closed(stack[x.level]))
  }

  lemma ClosingStart(uv: seq<UpVal>, stack: seq<Value>, t: int, level: nat)
    ensures Closing(uv, uv, stack, t, level)
  {
  }

  lemma ClosingNext(uv0: seq<UpVal>, uv: seq<UpVal>, stack: seq<Value>, t: int, level: nat, u: int)
    requires Closing(uv0, uv, stack, t, level) && 0 < u < |uv| && uv[u].Open? && uv[u].th == t
      && level <= uv[u].level < |stack|
    requires 0 <= uv[u].unext < |uv| && 0 <= uv[u].prev < |uv|
    requires var uv' := ClosedOne(uv, u, stack[uv[u].level]);
      |uv'| == |uv| && uv'[u] == Closed(stack[uv[u].level]) && forall i :: 0 <= i < |uv| && i != u ==>
        ClosedLike(uv[i], uv'[i])
    ensures Closing(uv0, ClosedOne(uv, u, stack[uv[u].level]), stack, t, level)
  {
    hide ClosedOne;
    var uv' := ClosedOne(uv, u, stack[uv[u].level]);
    forall i | 0 < i < |uv0| ensures ClosingAt(uv0[i], uv'[i], stack, t, level) {
      assert ClosingAt(uv0[i], uv[i], stack, t, level);
      assert i != u ==> ClosedLike(uv[i], uv'[i]);
    }
  }

  predicate FirstFits(uv: seq<UpVal>, p: int, t: int, n: int) {
    p != NULL ==> 0 < p < |uv| && uv[p].Open? && uv[p].th == t && 0 <= uv[p].level < n
  }

  lemma FirstOpen(sizes: seq<int>, uv: seq<UpVal>, heads: seq<int>, l: Links, t: int)
    requires Shape(sizes, uv, heads, l) && 0 <= t < |heads|
    ensures t < |sizes| && FirstFits(uv, heads[t], t, sizes[t])
  {
    hide Ring;
    assert ThreadList(uv, t, heads[t], l.lists[t], sizes[t]);
    assert heads[t] != NULL ==> heads[t] in l.lists[t];
  }

  /** The list is in order, so nothing from level on is left open. */
  lemma ClosingEnd(sizes: seq<int>, uv0: seq<UpVal>, uv: seq<UpVal>, heads: seq<int>, l: Links, stack: seq<Value>,
      t: int, level: nat)
    requires Shape(sizes, uv, heads, l) && 0 <= t < |heads| && Closing(uv0, uv, stack, t, level)
    requires var p := heads[t]; p == NULL || (0 < p < |uv| && uv[p].Open? && uv[p].level < level)
    ensures forall u :: 0 < u < |uv| && uv[u].Open? && uv[u].th == t ==> uv[u].level < level
    ensures |uv| == |uv0| && forall u :: 0 < u < |uv0| ==> ClosedFrom(uv0[u], uv[u], stack, t, level)
  {
    hide Ring;
    forall u | 0 < u < |uv| && uv[u].Open? && uv[u].th == t ensures uv[u].level < level {
      assert Listed(uv, l, u);
      assert ThreadList(uv, t, heads[t], l.lists[t], sizes[t]);
      var i :| 0 <= i < |l.lists[t]| && l.lists[t][i] == u;
      assert l.lists[t][0] == heads[t];
    }
    forall u | 0 < u < |uv0| ensures ClosedFrom(uv0[u], uv[u], stack, t, level) {
      assert ClosingAt(uv0[u], uv[u], stack, t, level);
    }
  }

  lemma SetClosedShape(sizes: seq<int>, uv: seq<UpVal>, heads: seq<int>, l: Links, u: int, v: Value)
    requires Shape(sizes, uv, heads, l) && 0 < u < |uv| && !uv[u].Open?
    ensures Shape(sizes, uv[u := Closed(v)], heads, l)
  {
    hide OpenList, NoDup;
    var uv' := uv[u := Closed(v)];
    RingFrame(uv, uv', [HEAD] + l.ring);
    hide Ring;
    forall t | 0 <= t < |heads| ensures ThreadList(uv', t, heads[t], l.lists[t], sizes[t]) {
      assert ThreadList(uv, t, heads[t], l.lists[t], sizes[t]);
      OtherList(uv, uv', t, heads[t], l.lists[t], sizes[t]);
    }
    hide ThreadList;
    forall i | 0 < i < |uv'| && uv'[i].Open? ensures Listed(uv', l, i) {
      assert Listed(uv, l, i);
    }
  }

  /** The walk along the open list in luaF_findupval. */
  ghost predicate Walk(uv: seq<UpVal>, list: seq<int>, k: int, level: int, prev: int, p: int) {
    && 0 <= k <= |list| && Descending(uv, list) && (forall j :: 0 <= j < k ==> uv[list[j]].level > level)
    && prev == PrevOf(list, k) && p == NextOf(list, k) && (p != NULL ==> 0 < p < |uv| && uv[p].Open?)
  }

  lemma WalkStart(uv: seq<UpVal>, p: int, list: seq<int>, level: int)
    requires OpenList(uv, p, list) && Descending(uv, list)
    ensures Walk(uv, list, 0, level, NULL, p)
  {
  }

  lemma WalkNext(uv: seq<UpVal>, head: int, list: seq<int>, k: int, level: int, prev: int, p: int)
    requires OpenList(uv, head, list) && Walk(uv, list, k, level, prev, p) && p != NULL && uv[p].level > level
    ensures k < |list| && Walk(uv, list, k + 1, level, p, uv[p].next)
  {
    OpenListAt(uv, head, list, k);
  }

  lemma WalkAt(sizes: seq<int>, uv: seq<UpVal>, heads: seq<int>, l: Links, t: int, k: int, level: int, prev: int,
      p: int)
    requires Shape(sizes, uv, heads, l) && 0 <= t < |heads| == |l.lists|
    requires Walk(uv, l.lists[t], k, level, prev, p) && p != NULL
    ensures 0 < p < |uv| && uv[p].Open? && uv[p].th == t
  {
    hide Ring, OpenList;
    assert p in l.lists[t];
    InRing(sizes, uv, heads, l, t, p);
  }

  lemma WalkDone(uv: seq<UpVal>, list: seq<int>, k: int, level: int, prev: int, p: int)
    requires Walk(uv, list, k, level, prev, p) && (p == NULL || uv[p].level < level)
    ensures PlaceFor(uv, list, k, level)
  {
    assert k < |list| ==> p == list[k] && 0 < list[k];
  }

  predicate SameSlot(uv: seq<UpVal>, t: int, x: int, y: int) {
    && 0 < x < |uv| && 0 < y < |uv| && uv[x].Open? && uv[y].Open?
    && uv[x].th == uv[y].th == t && uv[x].level == uv[y].level
  }

  lemma OnlyOne(uv: seq<UpVal>, t: int, u: int)
    requires 0 < u < |uv| && uv[u].Open? && uv[u].th == t && forall x, y :: SameSlot(uv, t, x, y) ==> x == y
    ensures forall x :: 0 < x < |uv| && uv[x].Open? && uv[x].th == t && uv[x].level == uv[u].level ==> x == u
  {
    assert forall x :: 0 < x < |uv| && uv[x].Open? && uv[x].th == t && uv[x].level == uv[u].level ==>
      SameSlot(uv, t, x, u);
  }

  /** No two open upvalues of a thread stand for the same slot. */
  lemma OneForLevel(sizes: seq<int>, uv: seq<UpVal>, heads: seq<int>, l: Links, t: int)
    requires Shape(sizes, uv, heads, l) && 0 <= t < |heads|
    ensures forall x, y :: SameSlot(uv, t, x, y) ==> x == y
  {
    hide Ring, OpenList;
    assert ThreadList(uv, t, heads[t], l.lists[t], sizes[t]);
    forall x, y | SameSlot(uv, t, x, y) ensures x == y {
      assert Listed(uv, l, x) && Listed(uv, l, y);
      var i :| 0 <= i < |l.lists[t]| && l.lists[t][i] == x;
      var j :| 0 <= j < |l.lists[t]| && l.lists[t][j] == y;
      assert i == j;
    }
  }

  lemma PrevIsNull(sizes: seq<int>, uv: seq<UpVal>, heads: seq<int>, l: Links, t: int, k: nat)
    requires Shape(sizes, uv, heads, l) && 0 <= t < |heads| == |l.lists| && k <= |l.lists[t]|
    ensures PrevOf(l.lists[t], k) == NULL <==> k == 0
  {
    hide Ring, OpenList;
    assert ThreadList(uv, t, heads[t], l.lists[t], sizes[t]);
  }

  lemma NewIs(uv: seq<UpVal>, uv': seq<UpVal>, t: int, level: int)
    requires Inserted(uv, uv', t, level)
    ensures |uv'| == |uv| + 1 && uv'[|uv|].Open? && uv'[|uv|].th == t && uv'[|uv|].level == level
  {
  }

  lemma NewRefines(stacks: seq<seq<Value>>, uv: seq<UpVal>, uv': seq<UpVal>, ups: seq<int>, a: Cells, t: int,
      level: int)
    requires Refines(stacks, uv, ups, a) && Inserted(uv, uv', t, level)
    ensures Refines(stacks, uv', ups, a)
  {
    LinksRefine(stacks, uv, uv', ups, a);
  }
}
