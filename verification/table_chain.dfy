/** The hash part of a table: a chained scatter table with Brent's variation. */
module TableChain {

  /** Num stands for the integral numbers; Other for every other value, strings and
      non-integral numbers included. */
  datatype TValue = Nil | NaN | Num(n: int) | Other(id: int)

  const NULL := -1

  /** The collector may mark the key of a node without a value as dead. The key is still there to
      be compared with, but the table does not answer to it any more. */
  datatype Node = Node(key: TValue, val: TValue, next: int, dead: bool)

  const FREE_NODE := Node(Nil, Nil, NULL, false)

  /** Any function of a key and the size of the hash part will do. */
  type Hash = (TValue, int) -> int

  /** mainposition */
  function Mp(h: Hash, key: TValue, size: int): (i: int)
    requires size > 0
    ensures 0 <= i < size
  {
    h(key, size) % size
  }

  predicate Used(ns: seq<Node>, i: int) { 0 <= i < |ns| && ns[i].key != Nil }

  predicate Named(ns: seq<Node>, i: int) { Used(ns, i) && !ns[i].dead }

  /** Each used node is in one chain: root is the first node of the chain, rank the place in it. */
  datatype Links = Links(root: seq<int>, rank: seq<int>)

  ghost predicate Together(l: Links, i: int, j: int)
    requires 0 <= i < |l.root| == |l.rank| && 0 <= j < |l.root|
  {
    l.root[i] == l.root[j]
  }

  ghost predicate RootedAt(ns: seq<Node>, l: Links, i: int)
    requires 0 <= i < |ns| == |l.root| == |l.rank|
  {
    && l.rank[i] >= 0 && Used(ns, l.root[i]) && l.root[l.root[i]] == l.root[i] && l.rank[l.root[i]] == 0
  }

  ghost predicate NextAt(ns: seq<Node>, l: Links, i: int)
    requires 0 <= i < |ns| == |l.root| == |l.rank|
  {
    var n := ns[i].next;
    n != NULL ==> Used(ns, n) && l.root[n] == l.root[i] && l.rank[n] == l.rank[i] + 1
  }

  ghost predicate Linked(ns: seq<Node>, l: Links) {
    && |l.root| == |l.rank| == |ns|
    && (forall i :: Used(ns, i) ==> RootedAt(ns, l, i) && NextAt(ns, l, i))
    && (forall i, j :: Used(ns, i) && Used(ns, j) && Together(l, i, j) && l.rank[i] == l.rank[j] ==> i == j)
    && (forall i, j :: Used(ns, i) && Used(ns, j) && Together(l, i, j) && l.rank[i] < l.rank[j] ==> ns[i].next != NULL)
    && (forall i :: 0 <= i < |ns| && !Used(ns, i) ==> ns[i] == FREE_NODE)
  }

  /** A key is found from its main position on, and that position holds a key that belongs there. */
  ghost predicate HomedAt(h: Hash, ns: seq<Node>, l: Links, i: int)
    requires 0 <= i < |ns| == |l.root| == |l.rank|
  {
    var m := Mp(h, ns[i].key, |ns|);
    Used(ns, m) && Together(l, m, i) && l.rank[m] <= l.rank[i] && Mp(h, ns[m].key, |ns|) == m
  }

  ghost predicate Homed(h: Hash, ns: seq<Node>, l: Links) {
    |l.root| == |l.rank| == |ns| && forall i :: Used(ns, i) ==> HomedAt(h, ns, l, i)
  }

  ghost predicate Distinct(ns: seq<Node>) {
    && (forall i, j :: Named(ns, i) && Named(ns, j) && ns[i].key == ns[j].key ==> i == j)
    && (forall i :: Used(ns, i) ==> ns[i].key != NaN && (ns[i].dead ==> ns[i].val == Nil))
  }

  /** The same key may be there dead as well; then the living one comes first in the chain. */
  ghost predicate BehindAt(ns: seq<Node>, l: Links, i: int, j: int)
    requires |l.root| == |l.rank| == |ns|
  {
    Used(ns, i) && ns[i].dead && Named(ns, j) && ns[i].key == ns[j].key ==> Together(l, j, i) && l.rank[j] < l.rank[i]
  }

  ghost predicate DeadBehind(ns: seq<Node>, l: Links) {
    |l.root| == |l.rank| == |ns| && forall i, j :: BehindAt(ns, l, i, j)
  }

  /** Every other node with a key of the same main position comes after the one that is there. */
  lemma HeadFirst(h: Hash, ns: seq<Node>, l: Links, i: int)
    requires Linked(ns, l) && Homed(h, ns, l) && Used(ns, i)
    ensures var m := Mp(h, ns[i].key, |ns|);
      && Used(ns, m) && Together(l, m, i) && Mp(h, ns[m].key, |ns|) == m && (m != i ==> l.rank[m] < l.rank[i])
  {
    assert HomedAt(h, ns, l, i);
  }

  ghost predicate Chains(h: Hash, ns: seq<Node>, l: Links) {
    Linked(ns, l) && Homed(h, ns, l) && Distinct(ns) && DeadBehind(ns, l)
  }

  ghost predicate HasKey(ns: seq<Node>, key: TValue) { exists i :: Named(ns, i) && ns[i].key == key }

  /** What the hash part holds for a key. */
  ghost function At(ns: seq<Node>, key: TValue): TValue {
    if HasKey(ns, key) then var i :| Named(ns, i) && ns[i].key == key; ns[i].val else Nil
  }

  lemma AtIs(ns: seq<Node>, i: int)
    requires Distinct(ns) && Named(ns, i)
    ensures HasKey(ns, ns[i].key) && At(ns, ns[i].key) == ns[i].val
  {
  }

  // --------------------------------------------- what the structure amounts to

  /** next never leads two nodes to the same one, and never around in a circle. */
  lemma NextInjective(ns: seq<Node>, l: Links, i: int, j: int)
    requires Linked(ns, l) && Used(ns, i) && Used(ns, j) && ns[i].next == ns[j].next != NULL
    ensures i == j
  {
    assert NextAt(ns, l, i) && NextAt(ns, l, j);
    assert Together(l, i, j);
  }

  function Follow(ns: seq<Node>, i: int, n: nat): int
    decreases n
  {
    if n == 0 || !(0 <= i < |ns|) then i else Follow(ns, ns[i].next, n - 1)
  }

  lemma {:induction false} NextAcyclic(ns: seq<Node>, l: Links, i: int, n: nat)
    requires Linked(ns, l) && Used(ns, i) && n > 0
    ensures Follow(ns, i, n) != i
  {
    if Follow(ns, i, n) != NULL {
      FollowRank(ns, l, i, n);
    }
  }

  lemma {:induction false} FollowRank(ns: seq<Node>, l: Links, i: int, n: nat)
    requires Linked(ns, l) && Used(ns, i) && Follow(ns, i, n) != NULL
    ensures Used(ns, Follow(ns, i, n)) && l.rank[Follow(ns, i, n)] == l.rank[i] + n && Together(l, i, Follow(ns, i, n))
    decreases n
  {
    if n > 0 && ns[i].next != NULL {
      assert NextAt(ns, l, i);
      FollowRank(ns, l, ns[i].next, n - 1);
    }
  }

  /** Every used node is reached from the main position of its key. */
  lemma Reached(h: Hash, ns: seq<Node>, l: Links, i: int) returns (n: nat)
    requires Chains(h, ns, l) && Used(ns, i)
    ensures Follow(ns, Mp(h, ns[i].key, |ns|), n) == i
  {
    assert HomedAt(h, ns, l, i);
    n := ReachedFrom(ns, l, Mp(h, ns[i].key, |ns|), i);
  }

  lemma {:induction false} ReachedFrom(ns: seq<Node>, l: Links, m: int, i: int) returns (n: nat)
    requires Linked(ns, l) && Used(ns, i) && Used(ns, m) && Together(l, m, i) && l.rank[m] <= l.rank[i]
    ensures Follow(ns, m, n) == i
    decreases l.rank[i] - l.rank[m]
  {
    if l.rank[m] == l.rank[i] {
      n := 0;
    } else {
      assert NextAt(ns, l, m);
      n := ReachedFrom(ns, l, ns[m].next, i);
      n := n + 1;
    }
  }

  // ------------------------------------------------------------- new keys

  /** The key goes to its main position, which holds no value: what was linked there stays linked. */
  function Placed(ns: seq<Node>, mp: int, key: TValue): seq<Node>
    requires 0 <= mp < |ns|
  {
    ns[mp := Node(key, Nil, ns[mp].next, false)]
  }

  ghost function PlacedLinks(ns: seq<Node>, l: Links, mp: int): Links
    requires 0 <= mp < |ns| == |l.root| == |l.rank|
  {
    if Used(ns, mp) then l else Links(l.root[mp := mp], l.rank[mp := 0])
  }

  lemma PlaceOk(h: Hash, ns: seq<Node>, l: Links, mp: int, key: TValue)
    requires Chains(h, ns, l) && 0 <= mp < |ns| && mp == Mp(h, key, |ns|) && ns[mp].val == Nil && key != Nil
      && key != NaN && !HasKey(ns, key)
    ensures Chains(h, Placed(ns, mp, key), PlacedLinks(ns, l, mp))
  {
    if !Used(ns, mp) {
      UnusedApart(ns, l, mp);
    }
    PlaceBehind(h, ns, l, mp, key);
    hide Linked, Homed, Distinct, DeadBehind;
    PlaceLinked(ns, l, mp, key);
    PlaceHomed(h, ns, l, mp, key);
    PlaceDistinct(ns, mp, key);
  }

  /** A dead copy of the key, if there is one, hangs from its main position. */
  lemma PlaceBehind(h: Hash, ns: seq<Node>, l: Links, mp: int, key: TValue)
    requires Chains(h, ns, l) && 0 <= mp < |ns| && mp == Mp(h, key, |ns|) && ns[mp].val == Nil && key != Nil
      && !HasKey(ns, key)
    ensures DeadBehind(Placed(ns, mp, key), PlacedLinks(ns, l, mp))
  {
    hide Linked, Homed, Distinct, HasKey;
    var ns', l' := Placed(ns, mp, key), PlacedLinks(ns, l, mp);
    forall i, j ensures BehindAt(ns', l', i, j) {
      if Used(ns', i) && ns'[i].dead && Named(ns', j) && ns'[i].key == ns'[j].key {
        if j == mp {
          HeadFirst(h, ns, l, i);
        } else {
          assert BehindAt(ns, l, i, j);
        }
      }
    }
  }

  lemma UnusedApart(ns: seq<Node>, l: Links, n: int)
    requires Linked(ns, l) && 0 <= n < |ns| && !Used(ns, n)
    ensures forall i :: Used(ns, i) ==> l.root[i] != n && ns[i].next != n
  {
    forall i | Used(ns, i) ensures l.root[i] != n && ns[i].next != n {
      assert RootedAt(ns, l, i) && NextAt(ns, l, i);
    }
  }

  lemma PlaceDistinct(ns: seq<Node>, mp: int, key: TValue)
    requires Distinct(ns) && 0 <= mp < |ns| && key != Nil && key != NaN && !HasKey(ns, key)
    ensures Distinct(Placed(ns, mp, key))
  {
    assert forall i :: Named(ns, i) ==> ns[i].key != key;
  }

  lemma PlaceHomed(h: Hash, ns: seq<Node>, l: Links, mp: int, key: TValue)
    requires Homed(h, ns, l) && 0 <= mp < |ns| && mp == Mp(h, key, |ns|) && key != Nil
    ensures Homed(h, Placed(ns, mp, key), PlacedLinks(ns, l, mp))
  {
    var ns', l' := Placed(ns, mp, key), PlacedLinks(ns, l, mp);
    forall i | Used(ns', i) ensures HomedAt(h, ns', l', i) {
      if i != mp {
        assert Used(ns, i) && HomedAt(h, ns, l, i);
      }
    }
  }

  lemma PlaceLinked(ns: seq<Node>, l: Links, mp: int, key: TValue)
    requires Linked(ns, l) && 0 <= mp < |ns| && key != Nil
    requires !Used(ns, mp) ==> forall i :: Used(ns, i) ==> l.root[i] != mp && ns[i].next != mp
    ensures Linked(Placed(ns, mp, key), PlacedLinks(ns, l, mp))
  {
    var ns', l' := Placed(ns, mp, key), PlacedLinks(ns, l, mp);
    forall i | Used(ns', i) ensures RootedAt(ns', l', i) && NextAt(ns', l', i) {
      if i != mp || Used(ns, mp) { assert RootedAt(ns, l, i) && NextAt(ns, l, i); }
    }
    assert forall i, j :: Used(ns', i) && Used(ns', j) && Together(l', i, j) ==> i == j || Together(l, i, j);
  }

  /** The key goes to the free node n, which is linked in behind the main position mp. */
  function Inserted(ns: seq<Node>, mp: int, n: int, key: TValue): seq<Node>
    requires 0 <= mp < |ns| && 0 <= n < |ns|
  {
    ns[n := Node(key, Nil, ns[mp].next, false)][mp := ns[mp].(next := n)]
  }

  ghost function InsertedLinks(ns: seq<Node>, l: Links, mp: int, n: int): Links
    requires 0 <= mp < |ns| == |l.root| == |l.rank| && 0 <= n < |ns|
  {
    Links(l.root[n := l.root[mp]],
          seq(|ns|, i requires 0 <= i < |ns| =>
            if i == n then l.rank[mp] + 1
              else if l.root[i] == l.root[mp] && l.rank[i] > l.rank[mp] then l.rank[i] + 1 else l.rank[i]))
  }

  lemma InsertOk(h: Hash, ns: seq<Node>, l: Links, mp: int, n: int, key: TValue)
    requires Chains(h, ns, l) && Used(ns, mp) && 0 <= n < |ns| && !Used(ns, n)
      && mp == Mp(h, key, |ns|) == Mp(h, ns[mp].key, |ns|)
    requires key != Nil && key != NaN && !HasKey(ns, key) && !ns[mp].dead
    ensures Chains(h, Inserted(ns, mp, n, key), InsertedLinks(ns, l, mp, n))
  {
    UnusedApart(ns, l, n);
    InsertBehind(h, ns, l, mp, n, key);
    hide Linked, Homed, Distinct, DeadBehind, HasKey;
    InsertLinked(ns, l, mp, n, key);
    InsertHomed(h, ns, l, mp, n, key);
    InsertDistinct(ns, mp, n, key);
  }

  lemma InsertBehind(h: Hash, ns: seq<Node>, l: Links, mp: int, n: int, key: TValue)
    requires Chains(h, ns, l) && Used(ns, mp) && 0 <= n < |ns| && !Used(ns, n) && mp == Mp(h, key, |ns|)
      && key != Nil && !HasKey(ns, key) && !ns[mp].dead
    ensures DeadBehind(Inserted(ns, mp, n, key), InsertedLinks(ns, l, mp, n))
  {
    hide Linked, Homed, Distinct, HasKey;
    var ns', l' := Inserted(ns, mp, n, key), InsertedLinks(ns, l, mp, n);
    forall i, j ensures BehindAt(ns', l', i, j) {
      if Used(ns', i) && ns'[i].dead && Named(ns', j) && ns'[i].key == ns'[j].key {
        if j == n {
          HeadFirst(h, ns, l, i);
        } else {
          assert BehindAt(ns, l, i, j);
        }
      }
    }
  }

  lemma InsertDistinct(ns: seq<Node>, mp: int, n: int, key: TValue)
    requires Distinct(ns) && Used(ns, mp) && 0 <= n < |ns| && !Used(ns, n) && key != Nil && key != NaN
      && !HasKey(ns, key)
    ensures Distinct(Inserted(ns, mp, n, key))
  {
    assert forall i :: Named(ns, i) ==> ns[i].key != key;
  }

  lemma InsertHomed(h: Hash, ns: seq<Node>, l: Links, mp: int, n: int, key: TValue)
    requires Homed(h, ns, l) && Used(ns, mp) && 0 <= n < |ns| && !Used(ns, n)
      && mp == Mp(h, key, |ns|) == Mp(h, ns[mp].key, |ns|)
    ensures Homed(h, Inserted(ns, mp, n, key), InsertedLinks(ns, l, mp, n))
  {
    var ns', l' := Inserted(ns, mp, n, key), InsertedLinks(ns, l, mp, n);
    forall i | Used(ns', i) ensures HomedAt(h, ns', l', i) {
      if i != n {
        assert Used(ns, i) && HomedAt(h, ns, l, i);
        assert Mp(h, ns[i].key, |ns|) != n;
      }
    }
  }

  lemma InsertLinked(ns: seq<Node>, l: Links, mp: int, n: int, key: TValue)
    requires Linked(ns, l) && Used(ns, mp) && 0 <= n < |ns| && !Used(ns, n) && key != Nil
    requires forall i :: Used(ns, i) ==> l.root[i] != n && ns[i].next != n
    ensures Linked(Inserted(ns, mp, n, key), InsertedLinks(ns, l, mp, n))
  {
    var ns', l' := Inserted(ns, mp, n, key), InsertedLinks(ns, l, mp, n);
    assert forall i :: Used(ns', i) <==> Used(ns, i) || i == n;
    forall i | Used(ns', i) ensures RootedAt(ns', l', i) && NextAt(ns', l', i) {
      assert RootedAt(ns, l, mp) && NextAt(ns, l, mp);
      if i != n {
        assert RootedAt(ns, l, i) && NextAt(ns, l, i);
        if i != mp && ns[i].next != NULL {
          assert Together(l, i, mp) ==> l.rank[i] != l.rank[mp];
        }
      }
    }
    forall i, j | Used(ns', i) && Used(ns', j) && Together(l', i, j) && l'.rank[i] == l'.rank[j] ensures i == j {
      assert i != n && j != n ==> Together(l, i, j);
    }
    forall i, j | Used(ns', i) && Used(ns', j) && Together(l', i, j) && l'.rank[i] < l'.rank[j]
        ensures ns'[i].next != NULL {
      if i == n {
        assert Together(l, mp, j) && l.rank[mp] < l.rank[j];
      } else if i != mp {
        assert j != n ==> Together(l, i, j) && l.rank[i] < l.rank[j];
        assert j == n ==> Together(l, i, mp) && l.rank[i] < l.rank[mp];
      }
    }
  }

  /** The node at mp, which does not belong there, moves to the free node n; prev leads to it. */
  function Moved(ns: seq<Node>, mp: int, n: int, prev: int, key: TValue): seq<Node>
    requires 0 <= mp < |ns| && 0 <= n < |ns| && 0 <= prev < |ns|
  {
    ns[n := ns[mp]][prev := ns[prev].(next := n)][mp := Node(key, Nil, NULL, false)]
  }

  ghost function MovedLinks(ns: seq<Node>, l: Links, mp: int, n: int): Links
    requires 0 <= mp < |ns| == |l.root| == |l.rank| && 0 <= n < |ns|
  {
    Links(l.root[n := l.root[mp]][mp := mp], l.rank[n := l.rank[mp]][mp := 0])
  }

  lemma MoveOk(h: Hash, ns: seq<Node>, l: Links, mp: int, n: int, prev: int, key: TValue)
    requires Chains(h, ns, l) && Used(ns, mp) && 0 <= n < |ns| && !Used(ns, n)
      && mp == Mp(h, key, |ns|) != Mp(h, ns[mp].key, |ns|)
    requires Used(ns, prev) && ns[prev].next == mp && key != Nil && key != NaN && !HasKey(ns, key)
    ensures Chains(h, Moved(ns, mp, n, prev, key), MovedLinks(ns, l, mp, n))
  {
    UnusedApart(ns, l, n);
    assert l.rank[mp] > 0 by { assert NextAt(ns, l, prev) && RootedAt(ns, l, prev); }
    MoveBehind(h, ns, l, mp, n, prev, key);
    hide Linked, Homed, Distinct, DeadBehind, HasKey;
    MoveLinked(ns, l, mp, n, prev, key);
    MoveHomed(h, ns, l, mp, n, prev, key);
    MoveDistinct(ns, mp, n, prev, key);
  }

  /** No dead copy of the key can be about: its main position would hold a key that belongs there. */
  lemma MoveBehind(h: Hash, ns: seq<Node>, l: Links, mp: int, n: int, prev: int, key: TValue)
    requires Chains(h, ns, l) && Used(ns, mp) && 0 <= n < |ns| && !Used(ns, n) && Used(ns, prev) && prev != mp
    requires mp == Mp(h, key, |ns|) != Mp(h, ns[mp].key, |ns|) && key != Nil && !HasKey(ns, key)
    ensures DeadBehind(Moved(ns, mp, n, prev, key), MovedLinks(ns, l, mp, n))
  {
    hide Linked, Homed, Distinct, HasKey, Moved, Mp;
    var ns', l' := Moved(ns, mp, n, prev, key), MovedLinks(ns, l, mp, n);
    MovedKeys(ns, mp, n, prev, key);
    forall i, j ensures BehindAt(ns', l', i, j) {
      if Used(ns', i) && ns'[i].dead && Named(ns', j) && ns'[i].key == ns'[j].key {
        var o, p := if i == n then mp else i, if j == n then mp else j;
        if j == mp {
          HeadFirst(h, ns, l, o);
        } else {
          assert BehindAt(ns, l, o, p);
        }
      }
    }
  }

  lemma MovedKeys(ns: seq<Node>, mp: int, n: int, prev: int, key: TValue)
    requires Used(ns, mp) && 0 <= n < |ns| && !Used(ns, n) && Used(ns, prev) && prev != mp && key != Nil
    ensures var ns' := Moved(ns, mp, n, prev, key);
      && |ns'| == |ns| && ns'[mp].key == key && !ns'[mp].dead
      && forall i :: 0 <= i < |ns| && i != mp ==>
           var o := if i == n then mp else i; ns'[i].key == ns[o].key && ns'[i].dead == ns[o].dead
  {
  }

  lemma MoveDistinct(ns: seq<Node>, mp: int, n: int, prev: int, key: TValue)
    requires Distinct(ns) && Used(ns, mp) && Used(ns, prev) && 0 <= n < |ns| && !Used(ns, n) && key != Nil
      && key != NaN && !HasKey(ns, key)
    ensures Distinct(Moved(ns, mp, n, prev, key))
  {
    assert forall i :: Named(ns, i) ==> ns[i].key != key;
  }

  lemma MoveHomed(h: Hash, ns: seq<Node>, l: Links, mp: int, n: int, prev: int, key: TValue)
    requires Homed(h, ns, l) && Used(ns, mp) && Used(ns, prev) && 0 <= n < |ns| && !Used(ns, n)
    requires mp == Mp(h, key, |ns|) != Mp(h, ns[mp].key, |ns|) && prev != mp
    ensures Homed(h, Moved(ns, mp, n, prev, key), MovedLinks(ns, l, mp, n))
  {
    var ns', l' := Moved(ns, mp, n, prev, key), MovedLinks(ns, l, mp, n);
    forall i | Used(ns', i) ensures HomedAt(h, ns', l', i) {
      if i != mp {
        var o := if i == n then mp else i;
        assert ns'[i].key == ns[o].key && Used(ns, o) && HomedAt(h, ns, l, o);
        assert Mp(h, ns[o].key, |ns|) != mp && Mp(h, ns[o].key, |ns|) != n;
      }
    }
  }

  lemma MoveLinked(ns: seq<Node>, l: Links, mp: int, n: int, prev: int, key: TValue)
    requires Linked(ns, l) && Used(ns, mp) && 0 <= n < |ns| && !Used(ns, n) && key != Nil
    requires Used(ns, prev) && ns[prev].next == mp && l.rank[mp] > 0
    requires forall i :: Used(ns, i) ==> l.root[i] != n && ns[i].next != n
    ensures Linked(Moved(ns, mp, n, prev, key), MovedLinks(ns, l, mp, n))
  {
    var ns', l' := Moved(ns, mp, n, prev, key), MovedLinks(ns, l, mp, n);
    assert forall i :: Used(ns', i) <==> Used(ns, i) || i == n;
    forall i | Used(ns, i) ensures RootedAt(ns, l, i) && NextAt(ns, l, i) && l.root[i] != mp
        && (ns[i].next == mp ==> i == prev) {
      assert RootedAt(ns, l, i) && NextAt(ns, l, i);
      if ns[i].next == mp { NextInjective(ns, l, i, prev); }
    }
    assert prev != mp && prev != n;
    forall i | Used(ns', i) ensures RootedAt(ns', l', i) && NextAt(ns', l', i) {
      MovedAt(ns, l, mp, n, prev, key, i);
    }
    MovedOrder(ns, l, mp, n, prev, key);
  }

  lemma MovedAt(ns: seq<Node>, l: Links, mp: int, n: int, prev: int, key: TValue, i: int)
    requires |ns| == |l.root| == |l.rank| && Used(ns, mp) && 0 <= n < |ns| && !Used(ns, n) && key != Nil
      && Used(ns, prev) && ns[prev].next == mp && prev != mp
    requires forall i :: Used(ns, i) ==>
      && l.root[i] != n && ns[i].next != n && RootedAt(ns, l, i) && NextAt(ns, l, i)
      && l.root[i] != mp && (ns[i].next == mp ==> i == prev)
    requires Used(Moved(ns, mp, n, prev, key), i)
    ensures RootedAt(Moved(ns, mp, n, prev, key), MovedLinks(ns, l, mp, n), i)
      && NextAt(Moved(ns, mp, n, prev, key), MovedLinks(ns, l, mp, n), i)
  {
    var o := if i == n then mp else i;
    assert Used(ns, o) && RootedAt(ns, l, o) && NextAt(ns, l, o);
  }

  lemma MovedOrder(ns: seq<Node>, l: Links, mp: int, n: int, prev: int, key: TValue)
    requires Linked(ns, l) && Used(ns, mp) && 0 <= n < |ns| && !Used(ns, n) && key != Nil && Used(ns, prev)
      && prev != mp
    requires forall i :: Used(ns, i) ==> l.root[i] != mp
    ensures var ns', l' := Moved(ns, mp, n, prev, key), MovedLinks(ns, l, mp, n);
      && (forall i, j :: Used(ns', i) && Used(ns', j) && Together(l', i, j) && l'.rank[i] == l'.rank[j] ==> i == j)
      && (forall i, j :: Used(ns', i) && Used(ns', j) && Together(l', i, j) && l'.rank[i] < l'.rank[j] ==>
        ns'[i].next != NULL)
  {
    var ns', l' := Moved(ns, mp, n, prev, key), MovedLinks(ns, l, mp, n);
    forall i, j | Used(ns', i) && Used(ns', j) && Together(l', i, j) && i != j
        ensures l'.rank[i] != l'.rank[j] && (l'.rank[i] < l'.rank[j] ==> ns'[i].next != NULL) {
      var o, p := if i == n then mp else i, if j == n then mp else j;
      assert Used(ns, o) && Used(ns, p);
      assert i != mp && j != mp;
      assert Together(l, o, p) && o != p;
    }
  }
}
