/** Rehash makes room: counting live keys against nodes. */
module TableCount {
  import opened Shared
  import opened TableChain
  import opened TableSizes
  import opened TableState

  ghost predicate LiveNode(ns: seq<Node>, i: int) { 0 <= i < |ns| && ns[i].val != Nil }

  lemma {:induction false} HashKeysIn(ns: seq<Node>)
    ensures forall k :: k in HashKeys(ns) <==> exists i :: LiveNode(ns, i) && ns[i].key == k
  {
    if ns != [] {
      var rest := ns[1..];
      HashKeysIn(rest);
      forall k ensures k in HashKeys(ns) <==> exists i :: LiveNode(ns, i) && ns[i].key == k {
        if k in HashKeys(rest) {
          var j :| LiveNode(rest, j) && rest[j].key == k;
          assert LiveNode(ns, j + 1) && ns[j + 1].key == k;
        }
        if i :| LiveNode(ns, i) && ns[i].key == k {
          if i > 0 { assert LiveNode(rest, i - 1) && rest[i - 1].key == k; }
        }
      }
    }
  }

  /** No two nodes with values have the same key. */
  ghost predicate LiveDistinct(ns: seq<Node>) {
    forall i, j :: LiveNode(ns, i) && LiveNode(ns, j) && ns[i].key == ns[j].key ==> i == j
  }

  lemma {:induction false} HashKeysDistinct(ns: seq<Node>)
    requires LiveDistinct(ns)
    ensures AllDistinct(HashKeys(ns))
  {
    if ns != [] {
      var rest := ns[1..];
      assert LiveDistinct(rest) by {
        forall i, j | LiveNode(rest, i) && LiveNode(rest, j) && rest[i].key == rest[j].key ensures i == j {
          assert LiveNode(ns, i + 1) && LiveNode(ns, j + 1);
        }
      }
      HashKeysDistinct(rest);
      if ns[0].val != Nil {
        assert ns[0].key !in HashKeys(rest) by {
          HashKeysIn(rest);
          if ns[0].key in HashKeys(rest) {
            var j :| LiveNode(rest, j) && rest[j].key == ns[0].key;
            assert LiveNode(ns, 0) && LiveNode(ns, j + 1);
          }
        }
      }
    }
  }

  /** The keys of a table that have values. */
  function LiveKeys(t: Tab): seq<TValue> { ArrayKeys(t.arr) + HashKeys(t.ns) }

  lemma LiveKeysOk(h: Hash, t: Tab, l: Links, m: map<TValue, TValue>)
    requires Shape(h, t, l) && Holds(t, m)
    ensures AllDistinct(LiveKeys(t)) && forall k :: k in LiveKeys(t) <==> k in m
  {
    ArrayKeysIn(t.arr);
    HashKeysIn(t.ns);
    LiveUsed(h, t, l);
    HashKeysDistinct(t.ns);
    hide Shape, ArrayKeys, HashKeys;
    forall k ensures k in LiveKeys(t) <==> k in m {
      LiveKeyIs(t, m, k);
    }
    hide Holds, AllDistinct;
    ConcatDistinct(ArrayKeys(t.arr), HashKeys(t.ns));
  }

  lemma ConcatDistinct(a: seq<TValue>, b: seq<TValue>)
    requires AllDistinct(a) && AllDistinct(b) && forall k :: k in a ==> k !in b
    ensures AllDistinct(a + b)
  {
    forall i, j | 0 <= i < j < |a + b| ensures (a + b)[i] != (a + b)[j] {
      if i < |a| <= j {
        assert (a + b)[i] in a && (a + b)[j] == b[j - |a|] && b[j - |a|] in b;
      }
    }
  }

  lemma LiveKeyIs(t: Tab, m: map<TValue, TValue>, k: TValue)
    requires Holds(t, m) && Distinct(t.ns)
    requires forall i :: LiveNode(t.ns, i) ==> Named(t.ns, i) && !InRange(t.ns[i].key, 0, |t.arr|)
    ensures k in LiveKeys(t) <==> k in m
  {
    ArrayKeysIn(t.arr);
    HashKeysIn(t.ns);
    hide ArrayKeys, HashKeys, Distinct;
    if i :| LiveNode(t.ns, i) && t.ns[i].key == k {
      AtIs(t.ns, i);
    }
    if !InRange(k, 0, |t.arr|) && Value(t, k) != Nil {
      var i :| Named(t.ns, i) && t.ns[i].key == k;
      AtIs(t.ns, i);
      assert LiveNode(t.ns, i);
    }
  }

  lemma LiveUsed(h: Hash, t: Tab, l: Links)
    requires Shape(h, t, l)
    ensures LiveDistinct(t.ns) && Distinct(t.ns) && forall i :: LiveNode(t.ns, i) ==>
      Named(t.ns, i) && !InRange(t.ns[i].key, 0, |t.arr|)
  {
    hide PowerSized, Homed, Pow2;
  }

  // ----------------------------------------------- keys that go to the hash part

  function Outside(ks: seq<TValue>, n: int): seq<TValue> {
    if ks == [] then [] else
    var last := ks[|ks| - 1];
    Outside(ks[..|ks| - 1], n) + if InRange(last, 0, n) then [] else [last]
  }

  lemma {:induction false} OutsideOk(ks: seq<TValue>, n: int)
    requires AllDistinct(ks)
    ensures |Outside(ks, n)| == |ks| - CountIn(ks, 0, n) && AllDistinct(Outside(ks, n))
    ensures forall k :: k in Outside(ks, n) <==> k in ks && !InRange(k, 0, n)
  {
    if ks != [] {
      var init := ks[..|ks| - 1];
      OutsideOk(init, n);
      assert forall k :: k in ks <==> k in init || k == ks[|ks| - 1];
      assert ks[|ks| - 1] !in init;
    }
  }

  // -------------------------------------------------------------- pigeonholes

  lemma {:induction false} SetOfSeq(s: seq<TValue>)
    ensures |set k | k in s| <= |s| && (AllDistinct(s) ==> |set k | k in s| == |s|)
  {
    if s == [] {
      assert (set k | k in s) == {};
    } else {
      var init, last := s[..|s| - 1], s[|s| - 1];
      SetOfSeq(init);
      assert (set k | k in s) == (set k | k in init) + {last};
      assert AllDistinct(s) ==> last !in init;
    }
  }

  lemma SubsetSize(a: set<TValue>, b: set<TValue>)
    requires a <= b
    ensures |a| <= |b|
  {
    if x :| x in a {
      SubsetSize(a - {x}, b - {x});
    }
  }

  function KeysOf(ns: seq<Node>): seq<TValue> { seq(|ns|, i requires 0 <= i < |ns| => ns[i].key) }

  ghost predicate HasFree(ns: seq<Node>) { exists i :: 0 <= i < |ns| && !Used(ns, i) }

  /** While one of the keys that the hash part was made for is missing, a node is free. */
  lemma RoomLeft(ns: seq<Node>, r: seq<TValue>, key: TValue)
    requires Distinct(ns) && key in r && |r| <= |ns|
      && forall i :: Used(ns, i) ==> Named(ns, i) && ns[i].key in r && ns[i].key != key
    ensures HasFree(ns)
  {
    if forall i :: 0 <= i < |ns| ==> Used(ns, i) {
      var ks := KeysOf(ns);
      assert AllDistinct(ks);
      SetOfSeq(ks);
      SetOfSeq(r);
      var all := set k | k in r;
      assert (set k | k in ks) <= all - {key} by {
        forall k | k in ks ensures k in r && k != key {
          var i :| 0 <= i < |ks| && ks[i] == k;
          assert Used(ns, i);
        }
      }
      var some := set k | k in ks;
      SubsetSize(some, all - {key});
      assert false;
    }
  }
}
