/** What the sweeper does to the state, one object at a time. */
module GcSweep {
  import opened Shared
  import opened GcHeap
  import opened GcState
  import opened GcInv

  function Without(s: seq<Ref>, r: Ref): (t: seq<Ref>)
    ensures forall x :: x in t <==> x in s && x != r
  {
    assert s != [] ==> forall x :: x in s <==> x == s[0] || x in s[1..];
    if s == [] then [] else if s[0] == r then Without(s[1..], r) else [s[0]] + Without(s[1..], r)
  }

  lemma {:induction false} WithoutNoDup(s: seq<Ref>, r: Ref)
    requires NoDup(s)
    ensures NoDup(Without(s, r))
  {
    if s != [] {
      WithoutNoDup(s[1..], r);
      assert s[0] !in s[1..];
    }
  }

  /** Sweeping alters an object only by closing an upvalue over the value it reads
      and by taking upvalues off a thread's open list. */
  ghost predicate SweptObject(h: Heap, o: Object, o': Object) {
    || o' == o
    || (o.Thread? && o'.Thread? && o' == o.(open := o'.open) && forall u :: u in o'.open ==> u in o.open)
    || (IsOpen(o) && o' == UpVal(Closed(UpValue(h, o.cell))))
  }

  /** All that a stretch of sweeping may do: free dead objects and whiten live ones. */
  ghost predicate SweepRel(s: State, s': State) {
    && s'.heap.Keys <= s.heap.Keys && s.heap.Keys == s.mark.Keys && s'.heap.Keys == s'.mark.Keys
    && (forall r :: r in s.heap && r !in s'.heap ==> IsDead(s, r))
    && (forall r :: r in s'.heap ==> SweptObject(s.heap, s.heap[r], s'.heap[r]))
    && (forall r :: r in s'.mark ==> s'.mark[r] == s.mark[r] || (s'.mark[r] == White(s.cw) && !IsDead(s, r)))
    && s'.cw == s.cw && s'.fixed == s.fixed && Roots(s') == Roots(s) && s'.main == s.main && s'.running == s.running
    && s'.gray == s.gray
  }

  lemma SweepRelTrans(s: State, s': State, s'': State)
    requires SweepRel(s, s') && SweepRel(s', s'') && Threads(s.heap) && Threads(s'.heap)
    ensures SweepRel(s, s'')
  {
    hide Threads, SweptObject, Roots;
    forall r | r in s''.heap ensures SweptObject(s.heap, s.heap[r], s''.heap[r]) {
      assert SweptObject(s.heap, s.heap[r], s'.heap[r]) && SweptObject(s'.heap, s'.heap[r], s''.heap[r]);
      SweptObjectTrans(s, s', r, s''.heap[r]);
    }
  }

  lemma SweptObjectTrans(s: State, s': State, r: Ref, o: Object)
    requires r in s.heap && r in s'.heap && SweepRel(s, s') && Threads(s'.heap)
    requires SweptObject(s'.heap, s'.heap[r], o)
    ensures SweptObject(s.heap, s.heap[r], o)
  {
    hide Roots, IsDead;
    assert SweptObject(s.heap, s.heap[r], s'.heap[r]);
    if IsOpen(s'.heap[r]) {
      var t := s'.heap[r].cell.th;
      assert t in s'.heap && s'.heap[t].Thread? by { assert UpvalOk(s'.heap, r); }
      assert SweptObject(s.heap, s.heap[t], s'.heap[t]);
    }
  }

  ghost predicate Calm(s: State) { Placed(s) && Safe(s) && BlackKinds(s) }

  lemma SweepRelRefl(s: State)
    requires Placed(s)
    ensures SweepRel(s, s)
  {
  }

  lemma Whitened(s: State, r: Ref)
    requires Calm(s) && r in s.heap && !IsDead(s, r)
    ensures var s' := s.(mark := s.mark[r := White(s.cw)]); Calm(s') && SweepRel(s, s')
  {
    hide Placed, Safe, SweepRel, Threads;
    var s' := s.(mark := s.mark[r := White(s.cw)]);
    WhitenedRel(s, r);
    PlacedFields(s, s');
    UpvalThreads(s);
    SweptClosed(s, s');
  }

  lemma WhitenedRel(s: State, r: Ref)
    requires Placed(s) && r in s.heap && !IsDead(s, r)
    ensures SweepRel(s, s.(mark := s.mark[r := White(s.cw)])) && s.mark[r := White(s.cw)].Keys == s.mark.Keys
  {
    hide Threads, StringLists;
    assert r in s.mark;
  }

  lemma UpvalThreads(s: State)
    requires Placed(s)
    ensures forall u :: u in s.heap && IsOpen(s.heap[u]) ==> s.heap[u].cell.th in s.heap
  {
    forall u | u in s.heap && IsOpen(s.heap[u]) ensures s.heap[u].cell.th in s.heap {
      assert UpvalOk(s.heap, u);
    }
  }

  /** Freeing a dead object that nothing alive depends on keeps the heap safe. */
  lemma SweptLive(s: State, s': State)
    requires Placed(s) && SweepRel(s, s')
    ensures LiveSet(s') == LiveSet(s) && Roots(s') == Roots(s)
    ensures LiveSet(s) <= s.heap.Keys && LiveSet(s') <= s'.heap.Keys
  {
    hide Threads, StringLists, SweptObject, Roots;
  }

  lemma SweptClosed(s: State, s': State)
    requires Safe(s) && Placed(s) && SweepRel(s, s')
    requires forall r :: r in s'.heap && IsOpen(s'.heap[r]) ==> s'.heap[r] == s.heap[r] && s.heap[r].cell.th in s'.heap
    ensures Safe(s') && LiveSet(s') == LiveSet(s)
  {
    hide Placed, SweepRel, Holds, LiveSet, Roots;
    SweptLive(s, s');
    forall r, k | r in LiveSet(s') && Edge(s'.heap, true, r, k) ensures k in LiveSet(s') {
      SweptHolds(s, s', r, k);
      assert Edge(s.heap, true, r, k);
    }
  }

  lemma SweptHolds(s: State, s': State, r: Ref, k: Ref)
    requires SweepRel(s, s') && r in s'.heap
    requires IsOpen(s'.heap[r]) ==> s'.heap[r] == s.heap[r] && s.heap[r].cell.th in s'.heap
    ensures Holds(s'.heap, r, k) ==> Holds(s.heap, r, k)
  {
    assert SweptObject(s.heap, s.heap[r], s'.heap[r]);
    if IsOpen(s'.heap[r]) {
      var t := s.heap[r].cell.th;
      assert SweptObject(s.heap, s.heap[t], s'.heap[t]);
    }
  }

  function CutAt(l: seq<Ref>, i: nat): seq<Ref>
    requires i < |l|
  {
    l[..i] + l[i + 1..]
  }

  lemma CutAtFacts(l: seq<Ref>, i: nat)
    requires i < |l| && NoDup(l)
    ensures NoDup(CutAt(l, i)) && forall x :: x in CutAt(l, i) <==> x in l && x != l[i]
  {
    forall x | x in l && x != l[i] ensures x in CutAt(l, i) {
      var j :| 0 <= j < |l| && l[j] == x;
      assert if j < i then CutAt(l, i)[j] == x else CutAt(l, i)[j - 1] == x;
    }
  }

  /** Removing r, which is neither an open upvalue nor a thread that owns any. */
  function Freed(s: State, r: Ref): State { s.(heap := s.heap - {r}, mark := s.mark - {r}) }

  lemma FreedRel(s: State, r: Ref)
    requires Calm(s) && r in s.heap && IsDead(s, r) && (s.heap[r].Thread? ==> s.heap[r].open == [])
    ensures SweepRel(s, Freed(s, r)) && Safe(Freed(s, r)) && BlackKinds(Freed(s, r))
    ensures r != s.main && r != s.running
  {
    hide Placed, StringLists, Threads;
    UpvalThreads(s);
    NoUpvalsOf(s, r);
    assert s.heap.Keys == s.mark.Keys by { PlacedKeys(s); }
    assert r !in LiveSet(s) && s.main in LiveSet(s) && s.running in LiveSet(s);
    SweptClosed(s, Freed(s, r));
  }

  lemma PlacedKeys(s: State)
    requires Placed(s)
    ensures s.heap.Keys == s.mark.Keys
  {
  }

  lemma NoUpvalsOf(s: State, r: Ref)
    requires Placed(s) && r in s.heap && (s.heap[r].Thread? ==> s.heap[r].open == [])
    ensures forall u :: u in s.heap && IsOpen(s.heap[u]) ==> s.heap[u].cell.th != r
  {
    forall u | u in s.heap && IsOpen(s.heap[u]) ensures s.heap[u].cell.th != r {
      assert UpvalOk(s.heap, u);
    }
  }

  lemma FreedThreads(h: Heap, r: Ref)
    requires Threads(h) && r in h && !IsOpen(h[r]) && (h[r].Thread? ==> h[r].open == [])
    ensures Threads(h - {r})
  {
    var h' := h - {r};
    forall t | t in h' && h'[t].Thread? ensures ThreadOk(h', t) {
      assert ThreadOk(h, t);
    }
    forall u | u in h' && IsOpen(h'[u]) ensures UpvalOk(h', u) {
      assert UpvalOk(h, u);
    }
  }

  lemma StringFreed(s: State, b: nat, i: nat)
    requires Calm(s) && b < |s.strt| && i < |s.strt[b]| && IsDead(s, s.strt[b][i])
    ensures var s' := Freed(s, s.strt[b][i]).(strt := s.strt[b := CutAt(s.strt[b], i)]); Calm(s') && SweepRel(s, s')
  {
    var r := s.strt[b][i];
    var s' := Freed(s, r).(strt := s.strt[b := CutAt(s.strt[b], i)]);
    StringFreedPlaced(s, b, i);
    hide Placed, Safe, StringLists, Threads;
    FreedRel(s, r);
    RelistedRel(s, Freed(s, r), s');
  }

  lemma StringFreedPlaced(s: State, b: nat, i: nat)
    requires Placed(s) && b < |s.strt| && i < |s.strt[b]|
    ensures s.strt[b][i] in s.heap && s.heap[s.strt[b][i]].String?
    ensures IsDead(s, s.strt[b][i]) ==> Placed(Freed(s, s.strt[b][i]).(strt := s.strt[b := CutAt(s.strt[b], i)]))
  {
    hide Threads, StringLists, NoDup, CutAt;
    var r := s.strt[b][i];
    ListedString(s.heap, s.strt, b, i);
    StringCut(s.heap, s.strt, b, i);
    FreedThreads(s.heap, r);
  }

  lemma ListedString(h: Heap, strt: seq<seq<Ref>>, b: nat, i: nat)
    requires StringLists(h, strt) && b < |strt| && i < |strt[b]|
    ensures strt[b][i] in h && h[strt[b][i]].String?
  {
    assert InStrings(strt, strt[b][i]);
  }

  /** The lists of objects do not matter for what is alive. */
  lemma RelistedRel(s: State, s1: State, s': State)
    requires SweepRel(s, s1) && Safe(s1) && s' == s1.(rootgc := s'.rootgc, strt := s'.strt, uvhead := s'.uvhead)
    ensures SweepRel(s, s') && Safe(s')
  {
    assert LiveSet(s') == LiveSet(s1) && Roots(s') == Roots(s1);
  }

  lemma StringCut(h: Heap, strt: seq<seq<Ref>>, b: nat, i: nat)
    requires StringLists(h, strt) && b < |strt| && i < |strt[b]|
    ensures StringLists(h - {strt[b][i]}, strt[b := CutAt(strt[b], i)])
  {
    var r, strt', h' := strt[b][i], strt[b := CutAt(strt[b], i)], h - {strt[b][i]};
    CutAtFacts(strt[b], i);
    forall x | x in h' && h'[x].String? ensures InStrings(strt', x) {
      assert InStrings(strt, x);
      var c :| 0 <= c < |strt| && x in strt[c];
      assert x in strt'[c];
    }
    forall x | InStrings(strt', x) ensures x in h' && h'[x].String? {
      var c :| 0 <= c < |strt'| && x in strt'[c];
      assert x in strt[c] && InStrings(strt, x);
      assert c != b ==> x != r;
    }
  }

  lemma ObjectFreed(s: State, i: nat)
    requires Calm(s) && i < |s.rootgc| && IsDead(s, s.rootgc[i])
    requires s.rootgc[i] in s.heap && (s.heap[s.rootgc[i]].Thread? ==> s.heap[s.rootgc[i]].open == [])
    ensures var s' := Freed(s, s.rootgc[i]).(rootgc := CutAt(s.rootgc, i)); Calm(s') && SweepRel(s, s')
  {
    var r := s.rootgc[i];
    var s' := Freed(s, r).(rootgc := CutAt(s.rootgc, i));
    ObjectFreedPlaced(s, i);
    hide Placed, Safe, StringLists, Threads;
    FreedRel(s, r);
    RelistedRel(s, Freed(s, r), s');
  }

  lemma ObjectFreedPlaced(s: State, i: nat)
    requires Placed(s) && i < |s.rootgc| && s.rootgc[i] in s.heap
      && (s.heap[s.rootgc[i]].Thread? ==> s.heap[s.rootgc[i]].open == [])
    requires IsDead(s, s.rootgc[i]) && Safe(s)
    ensures !IsOpen(s.heap[s.rootgc[i]]) && !s.heap[s.rootgc[i]].String?
    ensures Placed(Freed(s, s.rootgc[i]).(rootgc := CutAt(s.rootgc, i)))
  {
    hide IsClosed, Threads, StringLists, CutAt, NoDup;
    var r := s.rootgc[i];
    assert !IsOpen(s.heap[r]) && !s.heap[r].String?;
    CutAtFacts(s.rootgc, i);
    FreedThreads(s.heap, r);
    StringsApart(s.heap, s.strt, s.heap - {r});
  }

  /** The string table depends only on which strings there are. */
  lemma StringsApart(h: Heap, strt: seq<seq<Ref>>, h': Heap)
    requires StringLists(h, strt) && forall r :: (r in h && h[r].String?) <==> (r in h' && h'[r].String?)
    ensures StringLists(h', strt)
  {
  }

  /** A dead open upvalue leaves its thread's list, the list of all open upvalues and the heap. */
  function UpvalFreed(s: State, t: Ref, i: nat): State
    requires t in s.heap && s.heap[t].Thread? && i < |s.heap[t].open|
  {
    var u := s.heap[t].open[i];
    s.(heap := s.heap[t := s.heap[t].(open := CutAt(s.heap[t].open, i))] - {u}, mark := s.mark - {u},
      uvhead := Without(s.uvhead, u))
  }

  lemma OpenNoDup(h: Heap, t: Ref)
    requires Threads(h) && t in h && h[t].Thread?
    ensures NoDup(h[t].open)
  {
    assert ThreadOk(h, t);
  }

  lemma UnlinkedThreads(h: Heap, t: Ref, i: nat, h': Heap)
    requires Threads(h) && t in h && h[t].Thread? && i < |h[t].open|
    requires var u, ho := h[t].open[i], h[t := h[t].(open := CutAt(h[t].open, i))];
      h' == ho - {u} || (exists v :: h' == ho[u := UpVal(Closed(v))])
    ensures Threads(h')
  {
    var u := h[t].open[i];
    OpenNoDup(h, t);
    CutAtFacts(h[t].open, i);
    assert ThreadOk(h, t);
    assert u != t && u in h && IsOpen(h[u]) && h[u].cell.th == t;
    assert forall q :: q in h && q != u ==> q in h' && (q == t || h'[q] == h[q]);
    assert t in h' && h'[t] == h[t].(open := CutAt(h[t].open, i)) && (u in h' ==> !h'[u].Thread? && !IsOpen(h'[u]))
        && forall q :: q in h' ==> q in h;
    forall q | q in h' && h'[q].Thread? ensures ThreadOk(h', q) {
      UnlinkedThread(h, t, i, h', q);
    }
    forall x | x in h' && IsOpen(h'[x]) ensures UpvalOk(h', x) {
      assert UpvalOk(h, x);
      UnlinkedUpval(h, t, i, h', x);
    }
  }

  lemma UnlinkedThread(h: Heap, t: Ref, i: nat, h': Heap, q: Ref)
    requires Threads(h) && t in h && h[t].Thread? && i < |h[t].open| && NoDup(h[t].open) && q in h' && h'[q].Thread?
      && q in h
    requires var u := h[t].open[i]; u in h && IsOpen(h[u]) && h[u].cell.th == t && u != t && (u in h' ==>
      !h'[u].Thread?)
    requires forall q :: q in h && q != h[t].open[i] ==> q in h' && (q == t || h'[q] == h[q])
    requires t in h' && h'[t] == h[t].(open := CutAt(h[t].open, i))
    ensures ThreadOk(h', q)
  {
    assert ThreadOk(h, q);
    if q != t {
      assert h[t].open[i] !in h[q].open && t !in h[q].open;
      assert forall x :: x in h[q].open ==> x in h' && h'[x] == h[x];
    } else {
      CutThread(h, t, i, h');
    }
  }

  lemma CutThread(h: Heap, t: Ref, i: nat, h': Heap)
    requires t in h && h[t].Thread? && ThreadOk(h, t) && i < |h[t].open| && NoDup(h[t].open)
    requires forall q :: q in h && q != h[t].open[i] ==> q in h' && (q == t || h'[q] == h[q])
    requires t in h' && h'[t] == h[t].(open := CutAt(h[t].open, i))
    ensures ThreadOk(h', t)
  {
    hide NoDup, ThreadOk, CutAt;
    var open' := h'[t].open;
    forall x | x in open' ensures x in h' && IsOpen(h'[x]) && h'[x].cell.th == t && h'[x].cell.slot < h'[t].top {
      CutOpen(h, t, i, h', x);
    }
    CutPlaces(h[t].open, i);
    forall j, k | 0 <= j < k < |open'| ensures h'[open'[k]].cell.slot < h'[open'[j]].cell.slot {
      CutOrder(h, t, i, j, k);
      CutOpen(h, t, i, h', open'[j]);
      CutOpen(h, t, i, h', open'[k]);
    }
    ThreadBounds(h, t);
    ThreadParts(h', t);
  }

  lemma CutOpen(h: Heap, t: Ref, i: nat, h': Heap, x: Ref)
    requires t in h && h[t].Thread? && ThreadOk(h, t) && i < |h[t].open| && NoDup(h[t].open)
    requires forall q :: q in h && q != h[t].open[i] ==> q in h' && (q == t || h'[q] == h[q])
    requires x in CutAt(h[t].open, i)
    ensures x in h && x in h' && h'[x] == h[x] && IsOpen(h[x]) && h[x].cell.th == t && h[x].cell.slot < h[t].top
  {
    CutPlaces(h[t].open, i);
  }

  lemma ThreadBounds(h: Heap, t: Ref)
    requires t in h && h[t].Thread? && ThreadOk(h, t)
    ensures h[t].top <= |h[t].stack|
  {
  }

  lemma ThreadParts(h: Heap, t: Ref)
    requires t in h && h[t].Thread? && h[t].top <= |h[t].stack|
    requires forall u :: u in h[t].open ==> u in h && IsOpen(h[u]) && h[u].cell.th == t && h[u].cell.slot < h[t].top
    requires forall j :: 0 <= j < |h[t].open| ==>
      h[t].open[j] in h && h[h[t].open[j]].UpVal? && h[h[t].open[j]].cell.Open?
    requires forall i, j :: 0 <= i < j < |h[t].open| ==> h[h[t].open[j]].cell.slot < h[h[t].open[i]].cell.slot
    ensures ThreadOk(h, t)
  {
  }

  lemma CutPlaces(l: seq<Ref>, i: nat)
    requires NoDup(l) && i < |l|
    ensures |CutAt(l, i)| == |l| - 1 && forall j :: 0 <= j < |l| - 1 ==> CutAt(l, i)[j] == l[if j < i then j else j + 1]
    ensures forall x :: x in CutAt(l, i) ==> x in l && x != l[i]
  {
    CutAtFacts(l, i);
  }

  lemma CutOrder(h: Heap, t: Ref, i: nat, j: nat, k: nat)
    requires t in h && h[t].Thread? && ThreadOk(h, t) && i < |h[t].open| && j < k < |h[t].open| - 1
    ensures |CutAt(h[t].open, i)| == |h[t].open| - 1 && CutAt(h[t].open, i)[j] in h && CutAt(h[t].open, i)[k] in h
      && IsOpen(h[CutAt(h[t].open, i)[j]]) && IsOpen(h[CutAt(h[t].open, i)[k]])
    ensures h[CutAt(h[t].open, i)[k]].cell.slot < h[CutAt(h[t].open, i)[j]].cell.slot
  {
    var open := h[t].open;
    var j', k' := if j < i then j else j + 1, if k < i then k else k + 1;
    assert CutAt(open, i)[j] == open[j'] && CutAt(open, i)[k] == open[k'];
    assert h[open[k']].cell.slot < h[open[j']].cell.slot;
  }

  lemma UnlinkedUpval(h: Heap, t: Ref, i: nat, h': Heap, x: Ref)
    requires t in h && h[t].Thread? && i < |h[t].open| && NoDup(h[t].open) && x in h && IsOpen(h[x]) && x in h'
      && IsOpen(h'[x]) && UpvalOk(h, x)
    requires var u := h[t].open[i]; u != t && (u in h' ==> !h'[u].Thread? && !IsOpen(h'[u])) && u in h && IsOpen(h[u])
    requires forall q :: q in h && q != h[t].open[i] ==> q in h' && (q == t || h'[q] == h[q])
    requires t in h' && h'[t] == h[t].(open := CutAt(h[t].open, i))
    ensures UpvalOk(h', x)
  {
    CutAtFacts(h[t].open, i);
  }

  lemma UpvalFreedKeeps(s: State, t: Ref, i: nat)
    requires Calm(s) && t in s.heap && s.heap[t].Thread? && i < |s.heap[t].open| && IsDead(s, s.heap[t].open[i])
    ensures Calm(UpvalFreed(s, t, i)) && SweepRel(s, UpvalFreed(s, t, i))
  {
    var u, s' := s.heap[t].open[i], UpvalFreed(s, t, i);
    assert u in s.heap && IsOpen(s.heap[u]) by { assert ThreadOk(s.heap, t); }
    assert s.main in LiveSet(s) && s.running in LiveSet(s);
    UpvalFreedRel(s, t, i);
    UpvalFreedPlaced(s, t, i);
    UpvalThreads(s);
    NoUpvalsOf(s, u);
    SweptClosed(s, s') by { hide SweepRel, Threads, Placed; }
  }

  lemma UpvalFreedRel(s: State, t: Ref, i: nat)
    requires Placed(s) && t in s.heap && s.heap[t].Thread? && i < |s.heap[t].open| && IsDead(s, s.heap[t].open[i])
    ensures SweepRel(s, UpvalFreed(s, t, i))
  {
    hide Threads, StringLists;
    assert s.heap[t].open[i] in s.heap by { PlacedKeys(s); }
  }

  lemma UpvalFreedPlaced(s: State, t: Ref, i: nat)
    requires Placed(s) && t in s.heap && s.heap[t].Thread? && i < |s.heap[t].open|
    requires s.main != s.heap[t].open[i] && s.running != s.heap[t].open[i]
    ensures Placed(UpvalFreed(s, t, i))
  {
    hide Threads, StringLists;
    var u, s' := s.heap[t].open[i], UpvalFreed(s, t, i);
    UnlinkedThreads(s.heap, t, i, s'.heap);
    OpenInHeap(s.heap, t, u);
    StringsApart(s.heap, s.strt, s'.heap);
    WithoutNoDup(s.uvhead, u);
  }

  lemma OpenInHeap(h: Heap, t: Ref, u: Ref)
    requires Threads(h) && t in h && h[t].Thread? && u in h[t].open
    ensures u in h && IsOpen(h[u]) && h[u].cell.th == t && h[u].cell.slot < h[t].top <= |h[t].stack|
  {
    assert ThreadOk(h, t);
  }

  /** Close the upvalue at the head of a thread's list: it takes a copy of the value it
      reads and joins the list of collectable objects. */
  function UpvalClosed(s: State, t: Ref): State
    requires t in s.heap && s.heap[t].Thread? && s.heap[t].open != [] && s.heap[t].open[0] in s.heap
      && s.heap[s.heap[t].open[0]].UpVal?
  {
    var u := s.heap[t].open[0];
    var th := s.heap[t].(open := s.heap[t].open[1..]);
    s.(heap := s.heap[t := th][u := UpVal(Closed(UpValue(s.heap, s.heap[u].cell)))],
       uvhead := Without(s.uvhead, u), rootgc := [u] + s.rootgc, sweepAt := if s.sweepAt == 0 then 0 else s.sweepAt + 1)
  }

  lemma UpvalClosedKeeps(s: State, t: Ref)
    requires Calm(s) && t in s.heap && s.heap[t].Thread? && s.heap[t].open != []
    requires !IsDead(s, s.heap[t].open[0])
    ensures s.heap[t].open[0] in s.heap && IsOpen(s.heap[s.heap[t].open[0]])
    ensures Calm(UpvalClosed(s, t)) && SweepRel(s, UpvalClosed(s, t))
  {
    var u := s.heap[t].open[0];
    assert u in s.heap && IsOpen(s.heap[u]) by { assert ThreadOk(s.heap, t); }
    var s' := UpvalClosed(s, t);
    UpvalClosedRel(s, t);
    UpvalClosedPlaced(s, t);
    UpvalThreads(s);
    NoUpvalsOf(s, u);
    SweptClosed(s, s') by { hide SweepRel, Threads, Placed; }
  }

  lemma UpvalClosedRel(s: State, t: Ref)
    requires Placed(s) && t in s.heap && s.heap[t].Thread? && s.heap[t].open != []
    requires var u := s.heap[t].open[0]; u in s.heap && IsOpen(s.heap[u])
    ensures SweepRel(s, UpvalClosed(s, t))
  {
    hide Threads, StringLists;
  }

  lemma UpvalClosedPlaced(s: State, t: Ref)
    requires Placed(s) && t in s.heap && s.heap[t].Thread? && s.heap[t].open != []
    requires var u := s.heap[t].open[0]; u in s.heap && IsOpen(s.heap[u])
    ensures Placed(UpvalClosed(s, t))
  {
    hide Threads, StringLists;
    var u, s' := s.heap[t].open[0], UpvalClosed(s, t);
    assert CutAt(s.heap[t].open, 0) == s.heap[t].open[1..];
    UnlinkedThreads(s.heap, t, 0, s'.heap);
    StringsApart(s.heap, s.strt, s'.heap);
    WithoutNoDup(s.uvhead, u);
  }

  // ------------------------------------------------ phases across a sweep

  /** Between two sweeps of the collector's lists the phase invariant depends only on marks. */
  lemma SweptStays(s: State, s': State, r: Ref)
    requires SweepRel(s, s') && Swept(s, r) && r in s'.heap && Threads(s'.heap)
    requires s.heap[r].Thread? ==> s'.heap[r].Thread? && forall u :: u in s'.heap[r].open ==> u in s.heap[r].open
    ensures Swept(s', r)
  {
    if s'.heap[r].Thread? {
      assert SweptObject(s.heap, s.heap[r], s'.heap[r]);
      forall u | u in s'.heap[r].open ensures u in s'.mark && s'.mark[u] == White(s'.cw) {
        OpenInHeap(s'.heap, r, u);
      }
    }
  }

  /** When every list has been swept everything is white again. */
  lemma SweepEnds(s: State)
    requires Placed(s) && PhaseOk(s) && s.phase.Sweep? && s.sweepAt == |s.rootgc|
    ensures AllWhite(s)
  {
    forall r | r in s.mark ensures s.mark[r] == White(s.cw) {
      if IsOpen(s.heap[r]) {
        assert UpvalOk(s.heap, r);
        var t := s.heap[r].cell.th;
        var i :| 0 <= i < |s.rootgc| && s.rootgc[i] == t;
        assert Swept(s, s.rootgc[i]);
      } else if !s.heap[r].String? {
        var i :| 0 <= i < |s.rootgc| && s.rootgc[i] == r;
        assert Swept(s, s.rootgc[i]);
      }
    }
  }

  /** Closing a gray upvalue in the mark phase makes it black, so its value must be marked. */
  lemma ClosedGrayTri(s: State, t: Ref, u: Ref, s': State)
    requires TriColor(s.heap, s.mark, s.gray, s.grayagain, s.weak, {}) && t in s.heap && s.heap[t].Thread?
      && s.heap[t].open != []
    requires u == s.heap[t].open[0] && u in s.heap && IsOpen(s.heap[u]) && s' == UpvalClosed(s, t)
      && NonWhite(s.mark, u)
    ensures TriColor(s'.heap, s.mark[u := Black], s.gray, s.grayagain, s.weak, {u})
    ensures u !in s.gray && u !in s.grayagain && u !in s.weak
  {
    ClosedMentions(s, t, u, s');
    SameKinds(s, t, u, s');
    hide *;
    Retouched(s.heap, s'.heap, s.mark, s.mark[u := Black], s.gray, s.grayagain, s.weak, {u}, u);
  }

  lemma ClosedWhiteTri(s: State, t: Ref, u: Ref, s': State)
    requires TriColor(s.heap, s.mark, s.gray, s.grayagain, s.weak, {}) && t in s.heap && s.heap[t].Thread?
      && s.heap[t].open != []
    requires u == s.heap[t].open[0] && u in s.heap && IsOpen(s.heap[u]) && s' == UpvalClosed(s, t)
      && !NonWhite(s.mark, u)
    ensures TriColor(s'.heap, s.mark, s.gray, s.grayagain, s.weak, {})
  {
    ClosedMentions(s, t, u, s');
    SameKinds(s, t, u, s');
    hide *;
    Retouched(s.heap, s'.heap, s.mark, s.mark, s.gray, s.grayagain, s.weak, {}, u);
  }

  lemma SameKinds(s: State, t: Ref, u: Ref, s': State)
    requires t in s.heap && s.heap[t].Thread? && s.heap[t].open != []
    requires u == s.heap[t].open[0] && u in s.heap && IsOpen(s.heap[u]) && s' == UpvalClosed(s, t)
    ensures s'.heap.Keys == s.heap.Keys
    ensures forall r :: r in s.heap ==>
      && s'.heap[r].Udata? == s.heap[r].Udata? && s'.heap[r].Table? == s.heap[r].Table?
      && Queued(s'.heap[r]) == Queued(s.heap[r])
      && (r != u ==>
            && IsOpen(s'.heap[r]) == IsOpen(s.heap[r]) && s'.heap[r].UpVal? == s.heap[r].UpVal?
            && NeverBlack(s'.heap[r]) == NeverBlack(s.heap[r]))
  {
  }

  /** The mark-phase invariant survives a change to an object that is exempt or white. */
  lemma Retouched(h: Heap, h': Heap, m: Marks, m': Marks, gray: seq<Ref>, grayagain: seq<Ref>, weak: seq<Ref>,
      x: set<Ref>, u: Ref)
    requires TriColor(h, m, gray, grayagain, weak, {}) && u in h && h'.Keys == h.Keys && u in m && !Queued(h[u])
    requires (x == {u} && NonWhite(m, u) && m' == m[u := Black]) || (x == {} && m[u].White? && m' == m)
    requires forall r :: r in h ==>
      && h'[r].Udata? == h[r].Udata? && h'[r].Table? == h[r].Table? && Queued(h'[r]) == Queued(h[r])
      && (r != u ==>
            && IsOpen(h'[r]) == IsOpen(h[r]) && h'[r].UpVal? == h[r].UpVal? && NeverBlack(h'[r]) == NeverBlack(h[r]))
    requires forall r, k :: r in h && r != u && !NeverBlack(h[r]) && Mentions(h', r, k) ==> Mentions(h, r, k)
    ensures TriColor(h', m', gray, grayagain, weak, x) && u !in gray && u !in grayagain && u !in weak
  {
    hide Mentions, Queued, NeverBlack, IsOpen;
    assert u !in gray && u !in grayagain && u !in weak;
  }

  lemma ClosedMentions(s: State, t: Ref, u: Ref, s': State)
    requires t in s.heap && s.heap[t].Thread? && s.heap[t].open != []
    requires u == s.heap[t].open[0] && u in s.heap && IsOpen(s.heap[u]) && s' == UpvalClosed(s, t)
    ensures forall r, k :: r in s.heap && r != u && !NeverBlack(s.heap[r]) && Mentions(s'.heap, r, k) ==>
      Mentions(s.heap, r, k)
  {
  }

  // ------------------------------------------------------ closing upvalues

  /** What closing upvalues may do to the heap, in any phase. */
  ghost predicate CloseRel(s: State, s': State) {
    && s'.heap.Keys <= s.heap.Keys && s.heap.Keys == s.mark.Keys && s'.heap.Keys == s'.mark.Keys
    && (forall r :: r in s.heap && r !in s'.heap ==> IsDead(s, r))
    && (forall r :: r in s'.heap ==> SweptObject(s.heap, s.heap[r], s'.heap[r]))
    && (forall r :: r in s'.mark && IsDead(s', r) ==> IsDead(s, r))
    && s'.cw == s.cw && s'.fixed == s.fixed && s'.phase == s.phase && s'.strt == s.strt
    && s'.main == s.main && s'.registry == s.registry && s'.running == s.running && s'.types == s.types
    && (s.phase.Propagate? || SweepRel(s, s'))
  }

  lemma CloseRelTrans(s: State, s': State, s'': State)
    requires CloseRel(s, s') && CloseRel(s', s'') && Threads(s.heap) && Threads(s'.heap)
    ensures CloseRel(s, s'')
  {
    forall r | r in s''.heap ensures SweptObject(s.heap, s.heap[r], s''.heap[r]) {
      assert SweptObject(s.heap, s.heap[r], s'.heap[r]) && SweptObject(s'.heap, s'.heap[r], s''.heap[r]);
      if IsOpen(s'.heap[r]) {
        assert UpvalOk(s.heap, r) && UpvalOk(s'.heap, r);
        var t := s.heap[r].cell.th;
        assert SweptObject(s.heap, s.heap[t], s'.heap[t]);
      }
    }
    if !s.phase.Propagate? {
      SweepRelTrans(s, s', s'');
    }
  }

  lemma InvCalm(s: State)
    requires Inv(s)
    ensures Calm(s) && Threads(s.heap) && s.heap.Keys == s.mark.Keys
  {
  }

  lemma SweepIsClose(s: State, s': State)
    requires SweepRel(s, s') && s'.strt == s.strt && s'.registry == s.registry && s'.types == s.types
      && s'.phase == s.phase
    ensures CloseRel(s, s')
  {
  }

  /** Sweeping and closing keep the phase invariant, outside the mark phase, if the k
      objects they put in front of rootgc are white. */
  lemma PhaseStays(s: State, s': State, k: nat)
    requires Placed(s) && Placed(s') && BlackKinds(s') && PhaseOk(s) && !s.phase.Propagate? && SweepRel(s, s')
    requires s'.strt == s.strt && s'.sweepStr == s.sweepStr && s'.phase == s.phase && s'.cw == s.cw
    requires k <= |s'.rootgc| && s'.rootgc[k..] == s.rootgc && s'.sweepAt == if s.sweepAt == 0 then 0 else s.sweepAt + k
    requires forall i :: 0 <= i < k ==> Swept(s', s'.rootgc[i])
    ensures PhaseOk(s')
  {
    hide Placed, Swept, StringLists, SweepRel;
    assert |s'.rootgc| == k + |s.rootgc|;
    match s.phase
    case Pause => WhiteStays(s, s');
    case Finalize => WhiteStays(s, s');
    case SweepString => BucketsStay(s, s');
    case Sweep =>
      StringsStay(s, s');
      forall i | 0 <= i < s'.sweepAt ensures Swept(s', s'.rootgc[i]) {
        if i >= k {
          assert s'.rootgc[i] == s.rootgc[i - k];
          SweptInPlace(s, s', s.rootgc[i - k]);
        }
      }
  }

  lemma WhiteStays(s: State, s': State)
    requires SweepRel(s, s') && AllWhite(s)
    ensures AllWhite(s')
  {
  }

  lemma BucketsStay(s: State, s': State)
    requires SweepRel(s, s') && Placed(s') && s'.strt == s.strt && s.sweepStr <= |s.strt|
    requires forall b, r :: 0 <= b < s.sweepStr && r in s.strt[b] ==> r in s.mark && s.mark[r] == White(s.cw)
    ensures forall b, r :: 0 <= b < s.sweepStr && r in s.strt[b] ==> r in s'.mark && s'.mark[r] == White(s.cw)
  {
    hide Threads;
    forall b, r | 0 <= b < s.sweepStr && r in s.strt[b] ensures r in s'.mark && s'.mark[r] == White(s.cw) {
      assert InStrings(s'.strt, r);
    }
  }

  lemma StringsStay(s: State, s': State)
    requires SweepRel(s, s')
    requires forall r :: r in s.heap && s.heap[r].String? ==> r in s.mark && s.mark[r] == White(s.cw)
    ensures forall r :: r in s'.heap && s'.heap[r].String? ==> r in s'.mark && s'.mark[r] == White(s.cw)
  {
    forall r | r in s'.heap && s'.heap[r].String? ensures r in s'.mark && s'.mark[r] == White(s.cw) {
      assert SweptObject(s.heap, s.heap[r], s'.heap[r]);
    }
  }

  lemma SweptInPlace(s: State, s': State, r: Ref)
    requires Placed(s) && Placed(s') && SweepRel(s, s') && Swept(s, r) && r in s.rootgc && r in s'.rootgc
    ensures Swept(s', r)
  {
    assert SweptObject(s.heap, s.heap[r], s'.heap[r]);
    SweptStays(s, s', r);
  }

  lemma FreedPhase(s: State, t: Ref)
    requires Inv(s) && !s.phase.Propagate? && t in s.heap && s.heap[t].Thread? && s.heap[t].open != []
      && IsDead(s, s.heap[t].open[0])
    ensures PhaseOk(UpvalFreed(s, t, 0))
  {
    hide Placed, SweepRel, PhaseOk, Safe, Threads;
    InvCalm(s);
    UpvalFreedKeeps(s, t, 0);
    var s' := UpvalFreed(s, t, 0);
    PhaseStays(s, s', 0);
  }

  /** Outside the mark phase a gray upvalue is whitened as it is closed. */
  lemma ClosedPhase(s: State, t: Ref, s': State)
    requires Inv(s) && !s.phase.Propagate? && t in s.heap && s.heap[t].Thread? && s.heap[t].open != []
    requires var u := s.heap[t].open[0];
      && u in s.heap && IsOpen(s.heap[u]) && u in s.mark && !IsDead(s, u)
      && s' == UpvalClosed(s, t).(mark := if s.mark[u].Gray? then s.mark[u := White(s.cw)] else s.mark)
    requires Calm(s') && SweepRel(s, s')
    ensures PhaseOk(s')
  {
    hide Placed, SweepRel, PhaseOk, Threads;
    var u := s.heap[t].open[0];
    UpvalIsGray(s, u);
    assert s'.rootgc[1..] == s.rootgc;
    assert Swept(s', s'.rootgc[0]);
    InvCalm(s);
    PhaseStays(s, s', 1);
  }

  lemma UpvalIsGray(s: State, u: Ref)
    requires Inv(s) && u in s.heap && IsOpen(s.heap[u])
    ensures u in s.mark && u !in s.fixed && !s.mark[u].Black?
  {
    InvCalm(s);
  }

  // --------------------------------------------------------- mark phase

  ghost predicate NoOtherWhite(s: State) { forall r :: r in s.mark ==> s.mark[r] != White(!s.cw) }

  /** Collector work in the mark phase keeps the whole invariant. */
  lemma MarkStepInv(s: State, s': State)
    requires Placed(s) && Safe(s) && NoOtherWhite(s) && Advance(s.heap, s.mark, s'.heap, s'.mark)
    requires s' == s.(heap := s'.heap, mark := s'.mark, gray := s'.gray, grayagain := s'.grayagain, weak := s'.weak,
      phase := Propagate)
    requires TriColor(s'.heap, s'.mark, s'.gray, s'.grayagain, s'.weak, {})
    requires NonWhite(s'.mark, s.main) && NonWhite(s'.mark, s.registry)
    ensures Inv(s') && NoOtherWhite(s')
  {
    hide TriColor, Placed, Safe, ScannedHeap, Roots, NewUpvalsScanned;
    assert NoOtherWhite(s');
    assert Roots(s') == Roots(s) by { SameRoots(s, s'); }
    ScannedPlaced(s, s');
    ScannedSafe(s, s');
  }

  lemma SameRoots(s: State, s': State)
    requires s'.main == s.main && s'.registry == s.registry && s'.running == s.running && s'.types == s.types
    ensures Roots(s') == Roots(s)
  {
  }

  lemma ScannedSafe(s: State, s': State)
    requires Placed(s) && Safe(s) && NoOtherWhite(s) && NoOtherWhite(s') && ScannedHeap(s.heap, s'.heap)
    requires s.mark.Keys == s'.mark.Keys && Roots(s') == Roots(s)
    ensures Safe(s') && LiveSet(s') == s'.heap.Keys
  {
    hide Holds;
    ThreadsBelowTop(s.heap);
    assert LiveSet(s) == s.heap.Keys && LiveSet(s') == s'.heap.Keys;
    forall r, k | r in s'.heap && Edge(s'.heap, true, r, k) ensures k in s'.heap {
      ScannedEdges(s.heap, s'.heap, r, k);
      assert Edge(s.heap, true, r, k);
    }
  }

  lemma AdvanceFromMark(h: Heap, m: Marks, m': Marks, s: set<Ref>)
    requires h.Keys == m.Keys && MarkRound(h, m, m', s)
    ensures Advance(h, m, h, m')
  {
  }

  // ------------------------------------------------------ sweeping rootgc

  function Garbage(s: State): set<Ref> { set r | r in s.heap && IsDead(s, r) }

  lemma GarbageShrinks(s: State, s': State)
    requires SweepRel(s, s')
    ensures Garbage(s') <= Garbage(s) && LiveSet(s') == LiveSet(s)
    ensures forall r :: r in Garbage(s) && r !in s'.heap ==> Garbage(s') < Garbage(s)
  {
  }

  /** A live object has been whitened, its open upvalues before it: the sweep moves past it. */
  lemma SweepPast(s: State, s': State)
    requires Placed(s) && PhaseOk(s) && s.phase.Sweep? && s.sweepAt < |s.rootgc|
    requires var r := s.rootgc[s.sweepAt];
      && Placed(s.(mark := s.mark[r := White(s.cw)])) && BlackKinds(s.(mark := s.mark[r := White(s.cw)]))
      && SweepRel(s, s.(mark := s.mark[r := White(s.cw)]))
      && (r in s.heap && s.heap[r].Thread? ==>
        forall u :: u in s.heap[r].open ==> u in s.mark && s.mark[u] == White(s.cw))
      && s' == s.(mark := s.mark[r := White(s.cw)], sweepAt := s.sweepAt + 1)
    ensures PhaseOk(s')
  {
    hide Placed, SweepRel, PhaseOk, BlackKinds;
    var r := s.rootgc[s.sweepAt];
    var s1 := s.(mark := s.mark[r := White(s.cw)]);
    assert s1.rootgc[0..] == s.rootgc;
    PhaseStays(s, s1, 0);
    SweepNext(s1, s');
  }

  lemma SweepNext(s: State, s': State)
    requires PhaseOk(s) && s.phase.Sweep? && s.sweepAt < |s.rootgc| && Swept(s, s.rootgc[s.sweepAt])
      && s' == s.(sweepAt := s.sweepAt + 1)
    ensures PhaseOk(s')
  {
    forall i | 0 <= i < s'.sweepAt ensures Swept(s', s'.rootgc[i]) {
      assert Swept(s, s.rootgc[i]);
    }
  }

  /** A dead object at or after the sweep position has been unlinked and freed. */
  lemma SweepCut(s: State, i: nat, s': State)
    requires Placed(s) && PhaseOk(s) && s.phase.Sweep? && s.sweepAt <= i < |s.rootgc|
    requires s' == Freed(s, s.rootgc[i]).(rootgc := CutAt(s.rootgc, i)) && Placed(s') && BlackKinds(s')
      && SweepRel(s, s')
    ensures PhaseOk(s')
  {
    hide StringLists, Threads;
    StringsStay(s, s');
    forall j | 0 <= j < s'.sweepAt ensures Swept(s', s'.rootgc[j]) {
      assert s'.rootgc[j] == s.rootgc[j];
      SweptInPlace(s, s', s.rootgc[j]);
    }
  }

  /** One list of the string table has been swept. */
  lemma StringsSwept(s: State, s': State)
    requires Inv(s) && s.phase.SweepString? && Calm(s') && SweepRel(s, s') && |s'.strt| == |s.strt| && s'.cw == s.cw
    requires s'.phase == s.phase && s'.sweepAt == s.sweepAt && s'.sweepStr == s.sweepStr && s'.rootgc == s.rootgc
    requires forall c :: 0 <= c < |s.strt| && c != s.sweepStr ==> s'.strt[c] == s.strt[c]
    requires s.sweepStr < |s.strt| && forall r :: r in s'.strt[s.sweepStr] ==> r in s'.mark && s'.mark[r] == White(s.cw)
    ensures var n := s.sweepStr + 1; Inv(s'.(sweepStr := n, phase := if n >= |s'.strt| then Sweep else SweepString))
  {
    hide SweepRel, Safe, Placed, StringLists;
    var n := s.sweepStr + 1;
    var s2 := s'.(sweepStr := n, phase := if n >= |s'.strt| then Sweep else SweepString);
    assert StringLists(s'.heap, s'.strt) by { PlacedStrings(s'); }
    BucketsSwept(s, s');
    PlacedFields(s', s2);
    SafeFields(s', s2);
    if n >= |s'.strt| {
      AllBuckets(s');
    }
  }

  lemma PlacedStrings(s: State)
    requires Placed(s)
    ensures StringLists(s.heap, s.strt)
  {
  }

  lemma BucketsSwept(s: State, s': State)
    requires SweepRel(s, s') && StringLists(s'.heap, s'.strt) && |s'.strt| == |s.strt| && s.sweepStr < |s.strt|
    requires forall b, r :: 0 <= b < s.sweepStr && r in s.strt[b] ==> r in s.mark && s.mark[r] == White(s.cw)
    requires forall c :: 0 <= c < |s.strt| && c != s.sweepStr ==> s'.strt[c] == s.strt[c]
    requires forall r :: r in s'.strt[s.sweepStr] ==> r in s'.mark && s'.mark[r] == White(s.cw)
    ensures forall b, r :: 0 <= b < s.sweepStr + 1 && r in s'.strt[b] ==> r in s'.mark && s'.mark[r] == White(s.cw)
  {
    forall b, r | 0 <= b < s.sweepStr + 1 && r in s'.strt[b] ensures r in s'.mark && s'.mark[r] == White(s.cw) {
      if b < s.sweepStr {
        assert r in s.strt[b];
        assert InStrings(s'.strt, r);
      }
    }
  }

  lemma AllBuckets(s: State)
    requires Placed(s) && forall b, r :: 0 <= b < |s.strt| && r in s.strt[b] ==> r in s.mark && s.mark[r] == White(s.cw)
    ensures forall r :: r in s.heap && s.heap[r].String? ==> r in s.mark && s.mark[r] == White(s.cw)
  {
    hide Threads;
    forall r | r in s.heap && s.heap[r].String? ensures r in s.mark && s.mark[r] == White(s.cw) {
      assert InStrings(s.strt, r);
    }
  }

  /** Safety does not depend on the collector's lists or phase. */
  lemma SafeFields(s: State, s': State)
    requires Safe(s) && s'.heap == s.heap && s'.mark == s.mark && s'.cw == s.cw && s'.fixed == s.fixed
      && Roots(s') == Roots(s)
    ensures Safe(s')
  {
    assert LiveSet(s') == LiveSet(s);
  }
}
