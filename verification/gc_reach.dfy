/** What the steps of the collector do to reachability. */
module GcReach {
  import opened GcHeap
  import opened GcState
  import opened GcInv
  import opened GcSweep
  import opened Gc

  /** Sweeping changes nothing in what keeps what alive, as far as live objects go. */
  lemma SweptKeeps(s: State, s': State, r: Ref, k: Ref)
    requires Safe(s) && SweepRel(s, s') && Threads(s'.heap) && r in LiveSet(s)
    ensures r in s'.heap && (Keeps(s'.heap, r, k) <==> Keeps(s.heap, r, k))
  {
    hide IsClosed, Keeps;
    var h, h' := s.heap, s'.heap;
    assert r in h' && SweptObject(h, h[r], h'[r]);
    if h[r].Table? {
      SweptModes(s, s', r);
      SameTableKeeps(h, h', r, k);
    } else {
      if h'[r].UpVal? && h'[r].cell.Open? {
        assert UpvalOk(h', r);
        assert SweptObject(h, h[h[r].cell.th], h'[h[r].cell.th]);
      }
      OtherKeeps(h, h', r, k);
    }
  }

  lemma OtherKeeps(h: Heap, h': Heap, r: Ref, k: Ref)
    requires r in h && r in h' && !h[r].Table? && SweptObject(h, h[r], h'[r])
    requires h'[r].UpVal? && h'[r].cell.Open? ==>
      h'[r].cell.th in h && h'[r].cell.th in h' && h'[h'[r].cell.th].Thread?
      && SweptObject(h, h[h'[r].cell.th], h'[h'[r].cell.th])
    ensures Keeps(h', r, k) <==> Keeps(h, r, k)
  {
  }

  lemma SameTableKeeps(h: Heap, h': Heap, r: Ref, k: Ref)
    requires r in h && r in h' && h[r].Table? && h'[r] == h[r]
    requires WeakKeys(h', h[r].mt) == WeakKeys(h, h[r].mt) && WeakVals(h', h[r].mt) == WeakVals(h, h[r].mt)
    ensures Keeps(h', r, k) <==> Keeps(h, r, k)
  {
    hide WeakKeys, WeakVals;
  }

  lemma SweptModes(s: State, s': State, r: Ref)
    requires Safe(s) && SweepRel(s, s') && r in LiveSet(s) && s.heap[r].Table?
    ensures r in s'.heap && s'.heap[r] == s.heap[r]
    ensures WeakKeys(s'.heap, s.heap[r].mt) == WeakKeys(s.heap, s.heap[r].mt)
    ensures WeakVals(s'.heap, s.heap[r].mt) == WeakVals(s.heap, s.heap[r].mt)
  {
    assert SweptObject(s.heap, s.heap[r], s'.heap[r]);
    var m := s.heap[r].mt;
    if m.Obj? {
      assert Edge(s.heap, true, r, m.r);
      assert m.r in LiveSet(s);
      assert SweptObject(s.heap, s.heap[m.r], s'.heap[m.r]);
    }
  }

  /** So the same objects are reachable before and after. */
  lemma SweptReach(s: State, s': State, r: Ref)
    requires Safe(s) && SweepRel(s, s') && Threads(s'.heap) && Safe(s')
    ensures Reach(s.heap, false, Roots(s), r) <==> Reach(s'.heap, false, Roots(s), r)
  {
    hide Keeps, Threads, SweepRel;
    GarbageShrinks(s, s');
    assert Roots(s') == Roots(s) by { SweptRoots(s, s'); }
    if Reach(s.heap, false, Roots(s), r) {
      forall q, k | q in s.heap && Reach(s.heap, false, Roots(s), q) && Edge(s.heap, false, q, k)
        ensures q in s'.heap && Edge(s'.heap, false, q, k)
      {
        KeptIsReachable(s.heap, Roots(s), q);
        ReachInClosed(s.heap, true, Roots(s), LiveSet(s), q);
        SweptKeeps(s, s', q, k);
      }
      ReachSame(s.heap, s'.heap, false, Roots(s), r);
    }
    if Reach(s'.heap, false, Roots(s), r) {
      forall q, k | q in s'.heap && Reach(s'.heap, false, Roots(s), q) && Edge(s'.heap, false, q, k)
        ensures q in s.heap && Edge(s.heap, false, q, k)
      {
        KeptIsReachable(s'.heap, Roots(s), q);
        ReachInClosed(s'.heap, true, Roots(s), LiveSet(s'), q);
        SweptKeeps(s, s', q, k);
      }
      ReachSame(s'.heap, s.heap, false, Roots(s), r);
    }
  }

  lemma SweptRoots(s: State, s': State)
    requires SweepRel(s, s')
    ensures Roots(s') == Roots(s) && s'.fixed == s.fixed && s'.heap.Keys <= s.heap.Keys
  {
  }

  lemma ScannedReach(h: Heap, h': Heap, roots: set<Ref>, r: Ref)
    requires ScannedHeap(h, h') && UpvalsBelowTop(h)
    ensures Reach(h, false, roots, r) <==> Reach(h', false, roots, r)
  {
    hide ScannedHeap;
    forall q, k | q in h ensures q in h' && (Keeps(h', q, k) <==> Keeps(h, q, k)) {
      ScannedEdges(h, h', q, k);
      ScannedKeys(h, h');
    }
    ScannedKeys(h, h');
    if Reach(h, false, roots, r) {
      ReachSame(h, h', false, roots, r);
    }
    if Reach(h', false, roots, r) {
      ReachSame(h', h, false, roots, r);
    }
  }

  lemma ScannedKeys(h: Heap, h': Heap)
    requires ScannedHeap(h, h')
    ensures h.Keys == h'.Keys
  {
  }

  lemma ScannedKind(h: Heap, h': Heap, r: Ref)
    requires ScannedHeap(h, h') && r in h
    ensures r in h' && h'[r].String? == h[r].String?
  {
    assert ScannedObject(h[r], h'[r]);
  }
}
