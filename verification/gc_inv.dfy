/** The invariant of the whole collector, phase by phase, and what the steps of the
    mutator and of the sweeper do to it. */
module GcInv {
  import opened Shared
  import opened GcHeap
  import opened GcState

  // ------------------------------------------------------------- invariants

  /** A thread owns, in decreasing order of stack level, the open upvalues that read its stack. */
  ghost predicate ThreadOk(h: Heap, t: Ref)
    requires t in h && h[t].Thread?
  {
    && h[t].top <= |h[t].stack|
    && (forall u :: u in h[t].open ==> u in h && IsOpen(h[u]) && h[u].cell.th == t && h[u].cell.slot < h[t].top)
    && (forall i, j :: 0 <= i < j < |h[t].open| ==> h[h[t].open[j]].cell.slot < h[h[t].open[i]].cell.slot)
  }

  ghost predicate UpvalOk(h: Heap, u: Ref)
    requires u in h && IsOpen(h[u])
  {
    var t := h[u].cell.th;
    t in h && h[t].Thread? && u in h[t].open
  }

  ghost predicate Threads(h: Heap) {
    && (forall t :: t in h && h[t].Thread? ==> ThreadOk(h, t))
    && (forall u :: u in h && IsOpen(h[u]) ==> UpvalOk(h, u))
  }

  predicate InStrings(strt: seq<seq<Ref>>, r: Ref) { exists b :: 0 <= b < |strt| && r in strt[b] }

  ghost predicate StringLists(h: Heap, strt: seq<seq<Ref>>) {
    && strt != []
    && (forall r :: InStrings(strt, r) <==> r in h && h[r].String?)
    && (forall b :: 0 <= b < |strt| ==> NoDup(strt[b]))
    && (forall b, c, r :: 0 <= b < c < |strt| && r in strt[b] ==> r !in strt[c])
  }

  /** Every object is in exactly the list its kind calls for. */
  ghost predicate Placed(s: State) {
    && s.heap.Keys == s.mark.Keys
    && NoDup(s.rootgc) && (forall r :: r in s.rootgc <==> r in s.heap && !s.heap[r].String? && !IsOpen(s.heap[r]))
    && StringLists(s.heap, s.strt)
    && NoDup(s.uvhead) && (forall u :: u in s.uvhead <==> u in s.heap && IsOpen(s.heap[u]))
    && Threads(s.heap)
    && (forall r :: r in s.fixed ==> r in s.heap && s.heap[r].String?)
    && s.main in s.heap && s.heap[s.main].Thread?
    && s.running in s.heap && s.heap[s.running].Thread?
  }

  predicate IsDead(s: State, r: Ref) { r in s.mark && s.mark[r] == White(!s.cw) && r !in s.fixed }

  function LiveSet(s: State): set<Ref> { set r | r in s.heap && !IsDead(s, r) }

  function Roots(s: State): set<Ref> {
    {s.main, s.registry, s.running} + set v | v in s.types && v.Obj? :: v.r
  }

  /** Nothing alive refers to anything dead or freed, and the roots are alive. */
  ghost predicate Safe(s: State) {
    IsClosed(s.heap, true, LiveSet(s)) && Roots(s) <= LiveSet(s)
  }

  ghost predicate BlackKinds(s: State) {
    forall r :: r in s.mark && r in s.heap && s.mark[r].Black? ==> !NeverBlack(s.heap[r])
  }

  ghost predicate AllWhite(s: State) { forall r :: r in s.mark ==> s.mark[r] == White(s.cw) }

  ghost predicate Swept(s: State, r: Ref) {
    && r in s.mark && s.mark[r] == White(s.cw)
    && (r in s.heap && s.heap[r].Thread? ==>
      forall u :: u in s.heap[r].open ==> u in s.mark && s.mark[u] == White(s.cw))
  }

  ghost predicate PhaseOk(s: State) {
    match s.phase
    case Pause => AllWhite(s)
    case Finalize => AllWhite(s)
    case Propagate =>
      && TriColor(s.heap, s.mark, s.gray, s.grayagain, s.weak, {})
      && (forall r :: r in s.mark ==> s.mark[r] != White(!s.cw))
      && NonWhite(s.mark, s.main) && NonWhite(s.mark, s.registry)
    case SweepString =>
      && BlackKinds(s) && s.sweepAt == 0 && s.sweepStr < |s.strt|
      && (forall b, r :: 0 <= b < s.sweepStr && r in s.strt[b] ==> r in s.mark && s.mark[r] == White(s.cw))
    case Sweep =>
      && BlackKinds(s) && s.sweepAt <= |s.rootgc|
      && (forall r :: r in s.heap && s.heap[r].String? ==> r in s.mark && s.mark[r] == White(s.cw))
      && (forall i :: 0 <= i < s.sweepAt ==> Swept(s, s.rootgc[i]))
  }

  ghost predicate Inv(s: State) { Placed(s) && Safe(s) && PhaseOk(s) }

  /** What the mutator can get hold of, through weak references too. */
  ghost predicate Accessible(s: State, r: Ref) { Reach(s.heap, true, Roots(s), r) }

  ghost predicate AccessibleValue(s: State, v: Value) { v.Obj? ==> Accessible(s, v.r) }

  /** The safety theorem: whatever the mutator can get hold of is allocated and will
      not be collected by the sweep under way. */
  lemma AccessibleIsLive(s: State, r: Ref)
    requires Inv(s) && Accessible(s, r)
    ensures r in s.heap && !IsDead(s, r)
  {
    ReachInClosed(s.heap, true, Roots(s), LiveSet(s), r);
  }

  // --------------------------------------------------------- shared lemmas

  lemma ThreadsBelowTop(h: Heap)
    requires Threads(h)
    ensures UpvalsBelowTop(h)
  {
    forall u | u in h && IsOpen(h[u])
      ensures var t, i := h[u].cell.th, h[u].cell.slot; t in h && h[t].Thread? && i < h[t].top <= |h[t].stack|
    {
      assert UpvalOk(h, u);
      assert ThreadOk(h, h[u].cell.th);
    }
  }

  /** The collector may rely on every strong reference staying inside the heap. */
  lemma HeapIsClosed(s: State)
    requires Placed(s) && Safe(s) && forall r :: r in s.mark ==> s.mark[r] != White(!s.cw)
    ensures IsClosed(s.heap, false, s.heap.Keys) && LiveSet(s) == s.heap.Keys
  {
    assert LiveSet(s) == s.heap.Keys;
    forall r, k | r in s.heap && Edge(s.heap, false, r, k) ensures k in s.heap {
      EdgeOrder(s.heap, r, k);
      assert Edge(s.heap, true, r, k);
    }
  }

  /** Scanning and marking move no object between lists. */
  lemma ScannedPlaced(s: State, s': State)
    requires Placed(s) && ScannedHeap(s.heap, s'.heap) && s.mark.Keys == s'.mark.Keys
    requires s'.rootgc == s.rootgc && s'.strt == s.strt && s'.uvhead == s.uvhead && s'.fixed == s.fixed
    requires s'.main == s.main && s'.running == s.running
    ensures Placed(s')
  {
    var h, h' := s.heap, s'.heap;
    forall r | r in h
      ensures h'[r].String? == h[r].String? && h'[r].Thread? == h[r].Thread? && IsOpen(h'[r]) == IsOpen(h[r])
      ensures h[r].UpVal? ==> h'[r] == h[r]
      ensures h[r].Thread? ==> h'[r].open == h[r].open && h'[r].top == h[r].top && |h'[r].stack| == |h[r].stack|
    {
      assert ScannedObject(h[r], h'[r]);
    }
    forall t | t in h' && h'[t].Thread? ensures ThreadOk(h', t) {
      assert ThreadOk(h, t);
    }
    forall u | u in h' && IsOpen(h'[u]) ensures UpvalOk(h', u) {
      assert UpvalOk(h, u);
    }
  }

  lemma ClearedPlaced(s: State, h': Heap, m': Marks)
    requires Placed(s) && ClearedHeap(s.heap, s.mark, h', s.weak) && s.mark.Keys == m'.Keys
    ensures Placed(s.(heap := h', mark := m'))
  {
    hide NoDup, StringLists, Threads;
    ClearedKinds(s.heap, s.mark, h', s.weak);
    ClearedThreads(s.heap, s.mark, h', s.weak);
    ClearedStrings(s.heap, s.mark, h', s.weak, s.strt);
    hide ClearedHeap;
  }

  lemma ClearedKinds(h: Heap, m: Marks, h': Heap, weak: seq<Ref>)
    requires ClearedHeap(h, m, h', weak)
    ensures h'.Keys == h.Keys && forall r :: r in h ==>
      && h'[r].String? == h[r].String? && h'[r].Thread? == h[r].Thread? && IsOpen(h'[r]) == IsOpen(h[r])
      && (!h[r].Table? ==> h'[r] == h[r])
  {
    forall r | r in h
      ensures h'[r].String? == h[r].String? && h'[r].Thread? == h[r].Thread? && IsOpen(h'[r]) == IsOpen(h[r])
      ensures !h[r].Table? ==> h'[r] == h[r]
    {
      assert r in weak ==> h[r].Table? && h'[r].Table?;
    }
  }

  lemma ClearedStrings(h: Heap, m: Marks, h': Heap, weak: seq<Ref>, strt: seq<seq<Ref>>)
    requires ClearedHeap(h, m, h', weak) && StringLists(h, strt)
    ensures StringLists(h', strt)
  {
    ClearedKinds(h, m, h', weak);
    hide ClearedHeap;
  }

  lemma ClearedThreads(h: Heap, m: Marks, h': Heap, weak: seq<Ref>)
    requires ClearedHeap(h, m, h', weak) && Threads(h)
    ensures Threads(h')
  {
    ClearedKinds(h, m, h', weak);
    hide ClearedHeap;
    forall t | t in h' && h'[t].Thread? ensures ThreadOk(h', t) {
      assert ThreadOk(h, t);
    }
    forall u | u in h' && IsOpen(h'[u]) ensures UpvalOk(h', u) {
      assert UpvalOk(h, u);
    }
  }

  /** Flipping the white at the end of the mark phase makes dead exactly what is not marked,
      and nothing that is alive refers to it. */
  lemma FlipIsSafe(s: State, h': Heap, m': Marks)
    requires Placed(s) && AllDone(s.heap, s.mark, s.grayagain, s.weak)
    requires forall r :: r in s.mark ==> s.mark[r] != White(!s.cw)
    requires forall r :: r in Roots(s) ==> NonWhite(s.mark, r)
    requires ClearedHeap(s.heap, s.mark, h', s.weak) && StringsMarked(s.heap, s.mark, m')
    requires forall o :: o in s.weak ==> TableCleared(h', m', o)
    ensures Inv(Flipped(s, h', m'))
  {
    hide Placed, AllDone, ClearedHeap, TableCleared;
    ClearedPlaced(s, h', m');
    PlacedFields(s.(heap := h', mark := m'), Flipped(s, h', m'));
    FlipKinds(s, h', m');
    FlipClosed(s, h', m');
  }

  lemma PlacedFields(s: State, s': State)
    requires Placed(s) && s'.heap == s.heap && s'.mark.Keys == s.mark.Keys && s'.rootgc == s.rootgc && s'.strt == s.strt
    requires s'.uvhead == s.uvhead && s'.fixed == s.fixed && s'.main == s.main && s'.running == s.running
    ensures Placed(s') && s.strt != []
  {
  }

  /** The state when marking is over: the other white is current now. */
  function Flipped(s: State, h': Heap, m': Marks): State {
    s.(heap := h', mark := m', cw := !s.cw, phase := SweepString, sweepStr := 0, sweepAt := 0)
  }

  lemma FlipClosed(s: State, h': Heap, m': Marks)
    requires Placed(s) && AllDone(s.heap, s.mark, s.grayagain, s.weak)
    requires forall r :: r in s.mark ==> s.mark[r] != White(!s.cw)
    requires forall r :: r in Roots(s) ==> NonWhite(s.mark, r)
    requires ClearedHeap(s.heap, s.mark, h', s.weak) && StringsMarked(s.heap, s.mark, m')
    requires forall o :: o in s.weak ==> TableCleared(h', m', o)
    ensures Safe(Flipped(s, h', m'))
  {
    var s' := Flipped(s, h', m');
    hide AllDone, Holds, TableCleared, Placed, ClearedHeap, StringsMarked, Roots, LiveSet;
    FlippedLive(s, h', m', s');
    var live := LiveSet(s');
    forall r, k | r in live && Edge(h', true, r, k) ensures k in live {
      if r in s.fixed {
        StringHoldsNothing(h', r, k);
      } else {
        ClearedIsClosed(s.heap, s.mark, h', m', s.grayagain, s.weak, r, k);
      }
    }
  }

  lemma FlippedLive(s: State, h': Heap, m': Marks, s': State)
    requires Placed(s) && (forall r :: r in s.mark ==> s.mark[r] != White(!s.cw))
      && (forall r :: r in Roots(s) ==> NonWhite(s.mark, r))
    requires ClearedHeap(s.heap, s.mark, h', s.weak) && StringsMarked(s.heap, s.mark, m')
    requires s' == Flipped(s, h', m')
    ensures forall r :: r in LiveSet(s') <==> r in h' && (NonWhite(m', r) || r in s.fixed)
    ensures Roots(s') <= LiveSet(s') && h'.Keys == m'.Keys && forall r :: r in s.fixed ==> r in h' && h'[r].String?
  {
    hide Threads, StringLists, NoDup;
    assert forall r :: r in LiveSet(s') <==> r in h' && (NonWhite(m', r) || r in s.fixed);
    forall r | r in Roots(s') ensures r in LiveSet(s') {
      assert r in Roots(s);
    }
  }

  lemma StringHoldsNothing(h: Heap, r: Ref, k: Ref)
    requires r in h && h[r].String?
    ensures !Holds(h, r, k)
  {
  }

  lemma FlipKinds(s: State, h': Heap, m': Marks)
    requires AllDone(s.heap, s.mark, s.grayagain, s.weak)
    requires ClearedHeap(s.heap, s.mark, h', s.weak) && StringsMarked(s.heap, s.mark, m')
    ensures BlackKinds(Flipped(s, h', m'))
  {
    forall r | r in m' && r in h' && m'[r].Black? ensures !NeverBlack(h'[r]) {
      assert s.mark[r].Black?;
      assert r !in s.weak;
    }
  }

  /** At that point every object that is kept alive from the roots is marked. */
  lemma KeptIsMarked(s: State, r: Ref)
    requires AllDone(s.heap, s.mark, s.grayagain, s.weak) && forall q :: q in Roots(s) ==> NonWhite(s.mark, q)
    requires Reach(s.heap, false, Roots(s), r)
    ensures NonWhite(s.mark, r)
  {
    var marked := set q | q in s.heap && NonWhite(s.mark, q);
    forall q, k | q in marked && Edge(s.heap, false, q, k) ensures k in marked {
      MarkedIsClosed(s.heap, s.mark, s.grayagain, s.weak, q, k);
    }
    ReachInClosed(s.heap, false, Roots(s), marked, r);
  }
}
