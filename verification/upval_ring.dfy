/** Open upvalues (lfunc.c): for each thread a list ordered by stack level, for all of them a
    doubly linked ring, both threaded through the upvalues themselves. */
module UpvalRing {
  import opened Shared

  type Value = int

  /** An open upvalue stands for a stack slot of a thread and has links; a closed one has its own
      value, which takes the place of the ring's links. */
  datatype UpVal = Open(th: int, level: int, next: int, prev: int, unext: int) | Closed(value: Value)

  const NULL := -1

  /** The head of the ring, an upvalue that stands for no slot. */
  const HEAD := 0

  // --------------------------------------------------------------- open list

  /** p starts a list of just the upvalues in s. */
  ghost predicate OpenList(uv: seq<UpVal>, p: int, s: seq<int>)
    decreases |s|
  {
    if s == [] then p == NULL else p == s[0] && 0 < p < |uv| && uv[p].Open? && OpenList(uv, uv[p].next, s[1..])
  }

  /** Levels go down strictly. */
  ghost predicate Descending(uv: seq<UpVal>, s: seq<int>) {
    && (forall i :: 0 <= i < |s| ==> 0 < s[i] < |uv| && uv[s[i]].Open?)
    && (forall i, j :: 0 <= i < j < |s| ==> uv[s[i]].level > uv[s[j]].level)
  }

  lemma {:induction false} OpenListFrame(uv: seq<UpVal>, uv': seq<UpVal>, p: int, s: seq<int>)
    requires OpenList(uv, p, s) && |uv| <= |uv'| && forall i :: i in s && 0 < i < |uv| && uv[i].Open? ==>
      uv'[i].Open? && uv'[i].next == uv[i].next
    ensures OpenList(uv', p, s)
    decreases |s|
  {
    if s != [] {
      assert s[0] in s && forall i :: i in s[1..] ==> i in s;
      OpenListFrame(uv, uv', uv[p].next, s[1..]);
    }
  }

  lemma {:induction false} OpenListAt(uv: seq<UpVal>, p: int, s: seq<int>, i: nat)
    requires OpenList(uv, p, s) && i < |s|
    ensures 0 < s[i] < |uv| && uv[s[i]].Open? && OpenList(uv, uv[s[i]].next, s[i + 1..])
      && uv[s[i]].next == if i + 1 < |s| then s[i + 1] else NULL
    decreases i
  {
    if i > 0 {
      OpenListAt(uv, uv[p].next, s[1..], i - 1);
      assert s[1..][i..] == s[i + 1..];
    }
  }

  /** Linking a new upvalue in at place k: after the k-th one, or at the front. */
  lemma {:induction false} OpenListInsert(uv: seq<UpVal>, p: int, s: seq<int>, k: nat, uv': seq<UpVal>, u: int)
    requires OpenList(uv, p, s) && NoDup(s) && k <= |s| && |uv| <= |uv'| && 0 < u < |uv'| && u !in s
    requires uv'[u].Open? && uv'[u].next == if k < |s| then s[k] else NULL
    requires forall i :: i in s && 0 < i < |uv| && uv[i].Open? ==>
      uv'[i].Open? && uv'[i].next == if k > 0 && i == s[k - 1] then u else uv[i].next
    ensures OpenList(uv', if k == 0 then u else p, s[..k] + [u] + s[k..])
    decreases k
  {
    if k == 0 {
      assert s[..0] + [u] + s[0..] == [u] + s && ([u] + s)[1..] == s;
      assert p == (if s == [] then NULL else s[0]);
      OpenListFrame(uv, uv', p, s);
    } else {
      var t := s[1..];
      assert s[0] in s && (forall i :: i in t ==> i in s) && s[0] !in t;
      assert t[..k - 1] + [u] + t[k - 1..] == (s[..k] + [u] + s[k..])[1..];
      assert k > 1 ==> t[k - 2] == s[k - 1];
      assert k == 1 ==> s[k - 1] !in t;
      OpenListInsert(uv, uv[p].next, t, k - 1, uv', u);
    }
  }

  // --------------------------------------------------------------------- ring

  function Succ(i: int, n: int): int { if i + 1 == n then 0 else i + 1 }

  ghost predicate RingAt(uv: seq<UpVal>, c: seq<int>, i: int)
    requires 0 <= i < |c|
  {
    var j := Succ(i, |c|);
    && 0 <= c[i] < |uv| && 0 <= c[j] < |uv| && uv[c[i]].Open? && uv[c[j]].Open?
    && uv[c[i]].unext == c[j] && uv[c[j]].prev == c[i]
  }

  /** The ring goes around through just the upvalues of c. */
  ghost predicate Ring(uv: seq<UpVal>, c: seq<int>) {
    NoDup(c) && c != [] && forall i :: 0 <= i < |c| ==> RingAt(uv, c, i)
  }

  /** What luaF_findupval does to the ring: u is linked in behind the head. */
  function RingInserted(uv: seq<UpVal>, u: int): seq<UpVal>
    requires 0 <= u < |uv| && uv[u].Open? && 0 < |uv| && uv[HEAD].Open? && 0 <= uv[HEAD].unext < |uv|
  {
    var n := uv[HEAD].unext;
    var uv1 := uv[u := uv[u].(prev := HEAD, unext := n)];
    var uv2 := if uv1[n].Open? then uv1[n := uv1[n].(prev := u)] else uv1;
    if uv2[HEAD].Open? then uv2[HEAD := uv2[HEAD].(unext := u)] else uv2
  }

  lemma RingInsert(uv: seq<UpVal>, r: seq<int>, u: int)
    requires Ring(uv, [HEAD] + r) && 0 < u < |uv| && uv[u].Open? && u !in r
    ensures uv[HEAD].Open? && 0 <= uv[HEAD].unext < |uv| && Ring(RingInserted(uv, u), [HEAD, u] + r)
  {
    var c, c' := [HEAD] + r, [HEAD, u] + r;
    assert RingAt(uv, c, 0) && c[0] == HEAD;
    var uv' := RingInserted(uv, u);
    var n := uv[HEAD].unext;
    assert n == if r == [] then HEAD else r[0];
    forall i | 0 <= i < |c'| ensures RingAt(uv', c', i) {
      if i >= 2 {
        assert RingAt(uv, c, i - 1) && c'[i] == c[i - 1] && c[i - 1] != HEAD;
        assert c[i - 1] in r;
        if i + 1 < |c'| {
          assert c'[i + 1] == c[i] && c[i] in r && c[i] != c[1] && c[i] != HEAD;
        }
      }
    }
    assert NoDup(c') by {
      forall i, j | 0 <= i < j < |c'| ensures c'[i] != c'[j] {
        if j >= 2 { assert c'[j] == c[j - 1] && c[j - 1] in r; }
        if i >= 2 { assert c'[i] == c[i - 1]; }
      }
    }
  }

  /** unlinkupval */
  function RingRemoved(uv: seq<UpVal>, u: int): seq<UpVal>
    requires 0 <= u < |uv| && uv[u].Open? && 0 <= uv[u].unext < |uv| && 0 <= uv[u].prev < |uv|
  {
    var n, p := uv[u].unext, uv[u].prev;
    var uv1 := if uv[n].Open? then uv[n := uv[n].(prev := p)] else uv;
    if uv1[p].Open? then uv1[p := uv1[p].(unext := n)] else uv1
  }

  lemma RingRemove(uv: seq<UpVal>, c: seq<int>, k: nat)
    requires Ring(uv, c) && 0 < k < |c|
    ensures var u := c[k];
      && 0 <= u < |uv| && uv[u].Open? && 0 <= uv[u].unext < |uv| && 0 <= uv[u].prev < |uv|
      && Ring(RingRemoved(uv, u), c[..k] + c[k + 1..])
  {
    var u := c[k];
    assert RingAt(uv, c, k) && RingAt(uv, c, k - 1);
    var uv', c' := RingRemoved(uv, u), c[..k] + c[k + 1..];
    forall i | 0 <= i < |c'| ensures RingAt(uv', c', i) {
      RingRemoveAt(uv, c, k, i);
    }
    assert NoDup(c') by {
      forall i, j | 0 <= i < j < |c'| ensures c'[i] != c'[j] {
        assert c'[i] == (if i < k then c[i] else c[i + 1]) && c'[j] == (if j < k then c[j] else c[j + 1]);
      }
    }
  }

  lemma RingRemoveAt(uv: seq<UpVal>, c: seq<int>, k: nat, i: nat)
    requires Ring(uv, c) && 0 < k < |c| && i < |c| - 1
    requires var u := c[k]; 0 <= u < |uv| && uv[u].Open? && 0 <= uv[u].unext < |uv| && 0 <= uv[u].prev < |uv|
    ensures RingAt(RingRemoved(uv, c[k]), c[..k] + c[k + 1..], i)
  {
    var c' := c[..k] + c[k + 1..];
    var o := if i < k then i else i + 1;
    assert c'[i] == c[o] && RingAt(uv, c, o) && RingAt(uv, c, k) && RingAt(uv, c, k - 1);
    var j := Succ(i, |c'|);
    var oj := if j < k then j else j + 1;
    assert c'[j] == c[oj];
    assert uv[c[k]].prev == c[k - 1] && uv[c[k]].unext == c[Succ(k, |c|)];
  }
}
