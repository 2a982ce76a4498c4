/** A full collection: survivors are exactly what is reachable. */
module GcFull {
  import opened GcHeap
  import opened GcState
  import opened GcInv
  import opened GcSweep
  import opened Gc
  import opened GcPaths
  import opened GcReach
  import opened GcUnseen

  ghost function ReachSet(h: Heap, roots: set<Ref>): set<Ref> { set r | r in h && Reach(h, false, roots, r) }

  lemma ReachSetClosed(s: State)
    requires Safe(s)
    ensures IsClosed(s.heap, false, ReachSet(s.heap, Roots(s))) && Roots(s) <= ReachSet(s.heap, Roots(s))
  {
    var a := ReachSet(s.heap, Roots(s));
    forall r | r in Roots(s) ensures r in a {
      ReachRoot(s.heap, false, Roots(s), r);
    }
    forall r, k | r in a && Edge(s.heap, false, r, k) ensures k in a {
      ReachStep(s.heap, false, Roots(s), r, k);
      KeptIsReachable(s.heap, Roots(s), k);
      ReachInClosed(s.heap, true, Roots(s), LiveSet(s), k);
    }
  }

  ghost predicate NoWeak(h: Heap) { forall o :: o in h ==> !IsWeak(h, o) }

  lemma SweptNoWeak(s: State, s': State)
    requires SweepRel(s, s') && NoWeak(s.heap)
    ensures NoWeak(s'.heap)
  {
    forall o | o in s'.heap ensures !IsWeak(s'.heap, o) {
      assert SweptObject(s.heap, s.heap[o], s'.heap[o]);
      if s'.heap[o].Table? {
        assert !IsWeak(s.heap, o);
        var m := s'.heap[o].mt;
        if m.Obj? && m.r in s'.heap {
          assert SweptObject(s.heap, s.heap[m.r], s'.heap[m.r]);
        }
      }
    }
  }

  lemma ScannedNoWeak(h: Heap, h': Heap)
    requires ScannedHeap(h, h') && NoWeak(h)
    ensures NoWeak(h')
  {
    forall o | o in h' ensures !IsWeak(h', o) {
      assert ScannedObject(h[o], h'[o]);
      assert !IsWeak(h, o);
      if h'[o].Table? {
        ScannedModes(h, h', h[o].mt);
      }
    }
  }

  /** Abandoning a mark phase: everything is swept, nothing is dead. */
  lemma AbortInv(s: State)
    requires Inv(s) && (s.phase.Pause? || s.phase.Propagate?)
    ensures var s' := s.(sweepStr := 0, sweepAt := 0, gray := [], grayagain := [], weak := [], phase := SweepString);
      Inv(s') && LiveSet(s') == s'.heap.Keys && LiveSet(s) == s.heap.Keys && Roots(s') == Roots(s)
  {
    var s' := s.(sweepStr := 0, sweepAt := 0, gray := [], grayagain := [], weak := [], phase := SweepString);
    InvCalm(s);
    PlacedFields(s, s');
    SafeFields(s, s');
    assert forall r :: r in s.mark ==> s.mark[r] != White(!s.cw);
  }

  /** Run the collector to the end of the sweep under way. */
  method FinishSweep(g: GlobalState)
    requires Inv(g.View()) && !g.gcstate.Pause? && !g.gcstate.Propagate?
    modifies g`heap, g`mark, g`currentwhite, g`gcstate, g`rootgc, g`strt, g`sweepstrgc, g`sweepgc, g`gray, g`grayagain,
      g`weak, g`uvhead
    ensures Inv(g.View()) && g.gcstate.Finalize?
    ensures SweepRel(old(g.View()), g.View()) && g.heap.Keys == LiveSet(old(g.View()))
    ensures Unseen(old(g.View()), g.View())
  {
    hide Inv, SweepRel, Placed, IsClosed, Roots, Unseen;
    ghost var s0 := g.View();
    InvCalm(s0);
    CalmFacts(s0);
    while !g.gcstate.Finalize?
      invariant Inv(g.View()) && !g.gcstate.Pause? && !g.gcstate.Propagate? && SweepRel(s0, g.View())
      decreases if g.gcstate.SweepString? then 1 else 0, if g.gcstate.SweepString? then |g.strt| - g.sweepstrgc else 0,
        if g.gcstate.Finalize? then 0 else 1, Garbage(g.View()), |g.rootgc| - g.sweepgc
    {
      ghost var s1 := g.View();
      g.SingleStep({});
      InvCalm(s1);
      CalmFacts(s1);
      SweepRelTrans(s0, s1, g.View());
      Bounds(s1);
      Bounds(g.View());
    }
    GarbageShrinks(s0, g.View());
    QuietLive(g.View());
    SweptUnseen(s0, g.View());
  }

  lemma Bounds(s: State)
    requires Inv(s)
    ensures s.phase.SweepString? ==> s.sweepStr < |s.strt|
    ensures s.phase.Sweep? ==> s.sweepAt <= |s.rootgc|
  {
  }

  lemma QuietLive(s: State)
    requires Inv(s) && (s.phase.Finalize? || s.phase.Pause?)
    ensures LiveSet(s) == s.heap.Keys && AllWhite(s)
  {
  }

  /** Mark from the roots and flip, with no mutator step in between. */
  method MarkCycle(g: GlobalState)
    requires Inv(g.View()) && g.gcstate.Finalize?
    modifies g`heap, g`mark, g`currentwhite, g`gcstate, g`rootgc, g`strt, g`sweepstrgc, g`sweepgc, g`gray, g`grayagain,
      g`weak, g`uvhead
    ensures Inv(g.View()) && g.gcstate.SweepString? && g.heap.Keys == old(g.heap).Keys && g.fixed == old(g.fixed)
    ensures Roots(g.View()) == old(Roots(g.View()))
    ensures Exact(old(g.View()), g.View()) && Unseen(old(g.View()), g.View())
  {
    hide Inv, IsClosed, Placed, Safe, Reach, ScannedHeap, Advance, ReachSet, Exact, UpvalsBelowTop, AtomicDone, Unseen;
    ghost var s0 := g.View();
    ghost var a := ReachSet(s0.heap, Roots(s0));
    InvCalm(s0);
    CycleFacts(s0);
    g.MarkRoot(a);
    SameHeapUnseen(s0, g.View());
    while g.gcstate.Propagate?
      invariant Inv(g.View()) && (g.gcstate.Propagate? || g.gcstate.SweepString?)
      invariant g.gcstate.Propagate? ==>
        && IsClosed(g.heap, false, a) && Roots(g.View()) <= a && (forall r :: NonWhite(g.mark, r) ==> r in a)
        && ScannedHeap(s0.heap, g.heap)
      invariant g.fixed == s0.fixed && Roots(g.View()) == Roots(s0)
      invariant g.gcstate.SweepString? ==> Exact(s0, g.View()) && g.heap.Keys == s0.heap.Keys
      invariant Unseen(s0, g.View())
      decreases if g.gcstate.Propagate? then 1 else 0, Whites(g.mark), |g.gray|
    {
      ghost var s2 := g.View();
      g.SingleStep(a);
      StepUnseen(s2, g.View(), a);
      UnseenTrans(s0, s2, g.View());
      if g.gcstate.Propagate? {
        StillClosed(s0, s2, g.View(), a);
      } else {
        ghost var hm, mm :| AtomicDone(s2, hm, mm, g.View(), a);
        AtomicExact(s0, s2, hm, mm, g.View());
      }
    }
  }

  lemma CycleFacts(s: State)
    requires Inv(s)
    ensures IsClosed(s.heap, false, ReachSet(s.heap, Roots(s))) && Roots(s) <= ReachSet(s.heap, Roots(s))
      && ScannedHeap(s.heap, s.heap)
  {
    ReachSetClosed(s);
  }

  lemma StillClosed(s0: State, s: State, s': State, a: set<Ref>)
    requires Inv(s) && ScannedHeap(s0.heap, s.heap) && Advance(s.heap, s.mark, s'.heap, s'.mark)
      && IsClosed(s.heap, false, a)
    ensures IsClosed(s'.heap, false, a) && ScannedHeap(s0.heap, s'.heap)
  {
    ThreadsBelowTop(s.heap);
    ScannedClosed(s.heap, s'.heap, a);
    ScannedTrans(s0.heap, s.heap, s'.heap);
  }

  /** What is alive after the mark phase that began in s. */
  ghost predicate Exact(s: State, s': State) {
    && (forall r :: r in s.heap && Reach(s.heap, false, Roots(s), r) ==> r in LiveSet(s'))
    && (forall r :: r in LiveSet(s') && r in s.heap && !s.heap[r].String? ==> Reach(s.heap, false, Roots(s), r))
    && (NoWeak(s.heap) ==> forall r :: r in LiveSet(s') && r in s.heap ==>
      Reach(s.heap, false, Roots(s), r) || r in s.fixed)
  }

  lemma AtomicExact(s0: State, s2: State, hm: Heap, mm: Marks, s': State)
    requires Inv(s0) && ScannedHeap(s0.heap, s2.heap) && Roots(s') == Roots(s0) && s'.fixed == s0.fixed && Placed(s0)
    requires AtomicDone(s2, hm, mm, s', ReachSet(s0.heap, Roots(s0)))
    ensures Exact(s0, s') && s'.heap.Keys == s0.heap.Keys
  {
    hide Reach, Inv, Placed, ScannedHeap, ClearedHeap, StringsMarked, Roots, IsWeak;
    ScannedTrans(s0.heap, s2.heap, hm);
    ScannedKeys(s0.heap, hm);
    ClearedKeys(hm, mm, s'.heap, s'.weak);
    assert UpvalsBelowTop(s0.heap) by { InvCalm(s0); ThreadsBelowTop(s0.heap); }
    hide UpvalsBelowTop;
    forall r ensures Reach(s0.heap, false, Roots(s0), r) <==> Reach(hm, false, Roots(s0), r) {
      ScannedReach(s0.heap, hm, Roots(s0), r);
    }
    forall r | r in s0.heap ensures s0.heap[r].String? == hm[r].String? {
      ScannedKind(s0.heap, hm, r);
    }
    MarksAgree(hm, mm, s'.mark);
    FixedStrings(s0);
    if NoWeak(s0.heap) {
      ScannedNoWeak(s0.heap, hm);
    }
  }

  lemma FixedStrings(s: State)
    requires Placed(s)
    ensures forall r :: r in s.fixed ==> r in s.heap && s.heap[r].String?
  {
  }

  lemma MarksAgree(h: Heap, m: Marks, m': Marks)
    requires StringsMarked(h, m, m')
    ensures forall r :: NonWhite(m, r) ==> NonWhite(m', r)
    ensures forall r :: NonWhite(m', r) && !(r in h && h[r].String?) ==> NonWhite(m, r)
  {
  }

  /** A full collection, started in any state of the collector, frees every object that the
      roots do not keep alive and nothing else; only strings may survive for other reasons,
      being fixed or named in a weak table. Everything left is white, and the mutator sees no
      difference. */
  method FullGc(g: GlobalState)
    requires Inv(g.View())
    modifies g`heap, g`mark, g`currentwhite, g`gcstate, g`rootgc, g`strt, g`sweepstrgc, g`sweepgc, g`gray, g`grayagain,
      g`weak, g`uvhead
    ensures Inv(g.View()) && g.gcstate.Pause? && AllWhite(g.View()) && g.heap.Keys <= old(g.heap).Keys
    ensures forall r :: Reach(old(g.heap), false, Roots(old(g.View())), r) ==> r in g.heap
    ensures forall r :: r in g.heap && !old(g.heap)[r].String? ==> Reach(old(g.heap), false, Roots(old(g.View())), r)
    ensures NoWeak(old(g.heap)) ==>
      forall r :: r in g.heap ==> Reach(old(g.heap), false, Roots(old(g.View())), r) || r in old(g.fixed)
    ensures Unseen(old(g.View()), g.View())
  {
    hide Inv, Reach, SweepRel, Exact, Placed, Safe, IsClosed, Roots, LiveSet, NoWeak, Threads, Unseen;
    ghost var s0 := g.View();
    ghost var s1 := FinishCycle(g);
    ghost var s2 := g.View();
    MarkCycle(g);
    ghost var s3 := g.View();
    FinishSweep(g);
    ghost var s4 := g.View();
    FullExact(s0, s1, s2, s3, s4);
    QuietInv(s4);
    QuietLive(s4);
    g.gcstate := Pause;
    SameHeapUnseen(s4, g.View());
    UnseenTrans(s0, s2, s3);
    UnseenTrans(s0, s3, s4);
    UnseenTrans(s0, s4, g.View());
  }

  /** Give up the marking under way, if any, and sweep to the end: s1 is where the sweep starts. */
  method FinishCycle(g: GlobalState) returns (ghost s1: State)
    requires Inv(g.View())
    modifies g`heap, g`mark, g`currentwhite, g`gcstate, g`rootgc, g`strt, g`sweepstrgc, g`sweepgc, g`gray, g`grayagain,
      g`weak, g`uvhead
    ensures Inv(g.View()) && g.gcstate.Finalize? && Unseen(old(g.View()), g.View())
    ensures Inv(s1) && s1.heap == old(g.heap) && s1.fixed == old(g.fixed) && Roots(s1) == Roots(old(g.View()))
    ensures SweepRel(s1, g.View()) && g.heap.Keys == LiveSet(s1)
  {
    hide Inv, SweepRel, Placed, Safe, IsClosed, LiveSet, Threads, Unseen;
    ghost var s0 := g.View();
    if g.gcstate.Pause? || g.gcstate.Propagate? {
      AbortInv(s0);
      g.sweepstrgc, g.sweepgc := 0, 0;
      g.gray, g.grayagain, g.weak := [], [], [];
      g.gcstate := SweepString;
    }
    s1 := g.View();
    FinishSweep(g);
    SameHeapUnseen(s0, s1);
    UnseenTrans(s0, s1, g.View());
  }

  lemma FullExact(s0: State, s1: State, s2: State, s3: State, s4: State)
    requires Inv(s0) && Inv(s1) && Inv(s2) && s1.heap == s0.heap && s1.fixed == s0.fixed && Roots(s1) == Roots(s0)
    requires SweepRel(s1, s2) && s2.heap.Keys == LiveSet(s1)
    requires Exact(s2, s3) && s3.heap.Keys == s2.heap.Keys && s3.fixed == s2.fixed && s4.heap.Keys == LiveSet(s3)
    ensures s4.heap.Keys <= s0.heap.Keys
    ensures forall r :: Reach(s0.heap, false, Roots(s0), r) ==> r in s4.heap
    ensures forall r :: r in s4.heap && !s0.heap[r].String? ==> Reach(s0.heap, false, Roots(s0), r)
    ensures NoWeak(s0.heap) ==> forall r :: r in s4.heap ==> Reach(s0.heap, false, Roots(s0), r) || r in s0.fixed
  {
    hide Inv, Reach, Placed, IsClosed, NoWeak, Calm, BlackKinds;
    SweptRoots(s1, s2);
    forall r ensures Reach(s0.heap, false, Roots(s0), r) <==> Reach(s2.heap, false, Roots(s2), r) {
      InvCalm(s1);
      InvCalm(s2);
      SweptReach(s1, s2, r);
    }
    forall r | Reach(s2.heap, false, Roots(s2), r) ensures r in s2.heap {
      KeptIsReachable(s2.heap, Roots(s2), r);
      AccessibleIsLive(s2, r);
    }
    forall r | r in s2.heap ensures s2.heap[r].String? == s0.heap[r].String? {
      assert SweptObject(s1.heap, s1.heap[r], s2.heap[r]);
    }
    if NoWeak(s0.heap) {
      SweptNoWeak(s1, s2);
    }
  }
}
