/** The collector goes unseen: what the mutator can name by strong references it can name
    afterwards in the same way, and finds there what it would have found. */
module GcUnseen {
  import opened GcHeap
  import opened GcState
  import opened GcInv
  import opened GcPaths
  import opened GcSweep
  import opened Gc
  import opened GcReach

  /** The part is not in a weak table and not above the top of a stack. */
  ghost predicate SolidPart(h: Heap, o: Object, part: Part) {
    match o
    case Table(m, _, _, _) => part.Metatable? || !(WeakKeys(h, m) || WeakVals(h, m))
    case Thread(_, _, top, _) => part.SlotAt? ==> part.i < top
    case _ => true
  }

  ghost predicate Solid(s: State, p: Path) {
    p.In? ==>
      && Solid(s, p.of)
      && var v := ReadIn(s, p.of); v.Obj? && v.r in s.heap ==> SolidPart(s.heap, s.heap[v.r], p.part)
  }

  /** A string, or something that is named by a solid path. */
  ghost predicate Lasting(s: State, v: Value) {
    v.Obj? ==> (exists q :: Solid(s, q) && ReadIn(s, q) == v) || (v.r in s.heap && s.heap[v.r].String?)
  }

  /** An entry of a table, weak or not, whose key and value last. */
  ghost predicate LastingEntry(s: State, v: Value, i: nat) {
    && v.Obj? && v.r in s.heap && s.heap[v.r].Table? && i < |s.heap[v.r].entries|
    && var e := s.heap[v.r].entries[i]; !e.val.Nil? && Lasting(s, e.val) && (e.key.Live? ==> Lasting(s, e.key.v))
  }

  /** From s to s' solid paths stay solid and lead to the same values; and the entries of weak
      tables whose keys and values last are still there. */
  ghost predicate Unseen(s: State, s': State) {
    && (forall p :: Solid(s, p) ==> Solid(s', p) && ReadIn(s', p) == ReadIn(s, p))
    && (forall q, i :: Solid(s, q) && LastingEntry(s, ReadIn(s, q), i) ==> SameEntry(s, s', ReadIn(s, q), i))
  }

  ghost predicate SameEntry(s: State, s': State, v: Value, i: nat) {
    LastingEntry(s, v, i) && LastingEntry(s', v, i) && s'.heap[v.r].entries[i] == s.heap[v.r].entries[i]
  }

  lemma UnseenTrans(s: State, s': State, s'': State)
    requires Unseen(s, s') && Unseen(s', s'')
    ensures Unseen(s, s'')
  {
    hide Solid, ReadIn, LastingEntry;
    forall q, i | Solid(s, q) && LastingEntry(s, ReadIn(s, q), i) ensures SameEntry(s, s'', ReadIn(s, q), i) {
      assert SameEntry(s, s', ReadIn(s, q), i);
      assert SameEntry(s', s'', ReadIn(s', q), i);
      SameEntryTrans(s, s', s'', ReadIn(s, q), i);
    }
  }

  lemma SameEntryTrans(s: State, s': State, s'': State, v: Value, i: nat)
    requires SameEntry(s, s', v, i) && SameEntry(s', s'', v, i)
    ensures SameEntry(s, s'', v, i)
  {
    hide Lasting;
  }

  // ------------------------------------------------- what solid paths stand for

  lemma SolidKeeps(h: Heap, r: Ref, part: Part)
    requires r in h && SolidPart(h, h[r], part)
    ensures var v := PartOf(h, h[r], part); v.Obj? ==> Keeps(h, r, v.r)
  {
    var v := PartOf(h, h[r], part);
    if v.Obj? && h[r].Table? && !part.Metatable? {
      var e := h[r].entries[part.i];
      assert e in h[r].entries && EntryStrong(e, WeakKeys(h, h[r].mt), WeakVals(h, h[r].mt), v.r);
    }
  }

  /** Solid paths lead to what is kept alive. */
  lemma {:induction false} SolidReach(s: State, p: Path)
    requires Solid(s, p)
    ensures var v := ReadIn(s, p); v.Obj? ==> Reach(s.heap, false, Roots(s), v.r)
  {
    hide Reach;
    var v := ReadIn(s, p);
    if v.Obj? && p.In? {
      SolidReach(s, p.of);
      var o := ReadIn(s, p.of).r;
      SolidKeeps(s.heap, o, p.part);
      ReachStep(s.heap, false, Roots(s), o, v.r);
    } else if v.Obj? {
      assert v.r in Roots(s);
      ReachRoot(s.heap, false, Roots(s), v.r);
    }
  }

  ghost predicate SamePart(h: Heap, h': Heap, r: Ref, part: Part)
    requires r in h && r in h'
  {
    SolidPart(h, h[r], part) ==> SolidPart(h', h'[r], part) && PartOf(h', h'[r], part) == PartOf(h, h[r], part)
  }

  ghost predicate SameParts(h: Heap, h': Heap, r: Ref)
    requires r in h
  {
    r in h' && forall part :: SamePart(h, h', r, part)
  }

  ghost predicate Steady(s: State, v: Value) {
    v.Obj? ==> Reach(s.heap, false, Roots(s), v.r) || (v.r in s.heap && s.heap[v.r].String?)
  }

  ghost predicate SteadyEntry(s: State, r: Ref, i: nat) {
    && r in s.heap && s.heap[r].Table? && i < |s.heap[r].entries|
    && var e := s.heap[r].entries[i]; !e.val.Nil? && Steady(s, e.val) && (e.key.Live? ==> Steady(s, e.key.v))
  }

  ghost predicate StringStays(h: Heap, h': Heap, v: Value) {
    v.Obj? && v.r in h && h[v.r].String? ==> v.r in h' && h'[v.r].String?
  }

  ghost predicate EntryStays(h: Heap, h': Heap, r: Ref, i: nat)
    requires r in h && h[r].Table? && i < |h[r].entries|
  {
    && r in h' && h'[r].Table? && i < |h'[r].entries| && h'[r].entries[i] == h[r].entries[i]
    && StringStays(h, h', h[r].entries[i].val)
    && (h[r].entries[i].key.Live? ==> StringStays(h, h', h[r].entries[i].key.v))
  }

  /** What a step has to leave alone. */
  ghost predicate Undisturbed(s: State, s': State) {
    && s'.running == s.running && s'.registry == s.registry && s'.types == s.types
    && (forall r :: r in s.heap && Reach(s.heap, false, Roots(s), r) ==> SameParts(s.heap, s'.heap, r))
    && (forall r, i :: SteadyEntry(s, r, i) && Reach(s.heap, false, Roots(s), r) ==> EntryStays(s.heap, s'.heap, r, i))
  }

  lemma {:induction false} FindSame(s: State, s': State, p: Path)
    requires Inv(s) && Undisturbed(s, s') && Solid(s, p)
    ensures Solid(s', p) && ReadIn(s', p) == ReadIn(s, p)
  {
    hide Inv, Reach, SolidPart, PartOf;
    if p.In? {
      FindSame(s, s', p.of);
      var v := ReadIn(s, p.of);
      if v.Obj? {
        FindAccessible(s, p.of);
        AccessibleIsLive(s, v.r);
        SolidReach(s, p.of);
        assert SameParts(s.heap, s'.heap, v.r);
        assert SamePart(s.heap, s'.heap, v.r, p.part);
      }
    }
  }

  lemma LastingIsSteady(s: State, v: Value)
    requires Lasting(s, v)
    ensures Steady(s, v)
  {
    hide Reach, Solid;
    if v.Obj? && !(v.r in s.heap && s.heap[v.r].String?) {
      var q :| Solid(s, q) && ReadIn(s, q) == v;
      SolidReach(s, q);
    }
  }

  lemma LastingStays(s: State, s': State, v: Value)
    requires Inv(s) && Undisturbed(s, s') && Lasting(s, v) && StringStays(s.heap, s'.heap, v)
    ensures Lasting(s', v)
  {
    hide Inv, Undisturbed, Solid, ReadIn;
    if v.Obj? && !(v.r in s.heap && s.heap[v.r].String?) {
      var q :| Solid(s, q) && ReadIn(s, q) == v;
      FindSame(s, s', q);
    }
  }

  lemma UndisturbedUnseen(s: State, s': State)
    requires Inv(s) && Undisturbed(s, s')
    ensures Unseen(s, s')
  {
    hide Inv, Undisturbed, Solid, ReadIn, LastingEntry, SameEntry;
    forall p | Solid(s, p) ensures Solid(s', p) && ReadIn(s', p) == ReadIn(s, p) {
      FindSame(s, s', p);
    }
    forall q, i | Solid(s, q) && LastingEntry(s, ReadIn(s, q), i) ensures SameEntry(s, s', ReadIn(s, q), i) {
      EntryUnseen(s, s', q, i);
    }
  }

  lemma EntryUnseen(s: State, s': State, q: Path, i: nat)
    requires Inv(s) && Undisturbed(s, s') && Solid(s, q) && LastingEntry(s, ReadIn(s, q), i)
    ensures SameEntry(s, s', ReadIn(s, q), i)
  {
    hide Inv, Lasting, Steady, Solid, ReadIn, Reach, StringStays;
    var r := ReadIn(s, q).r;
    var e := s.heap[r].entries[i];
    SolidReach(s, q);
    LastingIsSteady(s, e.val);
    if e.key.Live? {
      LastingIsSteady(s, e.key.v);
    }
    assert SteadyEntry(s, r, i);
    assert EntryStays(s.heap, s'.heap, r, i);
    LastingStays(s, s', e.val);
    if e.key.Live? {
      LastingStays(s, s', e.key.v);
    }
  }

  // ------------------------------------------------------------------ the steps

  lemma SameHeapUnseen(s: State, s': State)
    requires Inv(s) && s'.heap == s.heap && s'.running == s.running && s'.registry == s.registry && s'.types == s.types
    ensures Unseen(s, s')
  {
    hide Inv, SolidPart, PartOf, Reach;
    UndisturbedUnseen(s, s');
  }

  lemma ScannedPart(h: Heap, h': Heap, r: Ref, part: Part)
    requires ScannedHeap(h, h') && UpvalsBelowTop(h) && r in h
    ensures r in h' && SamePart(h, h', r, part)
  {
    hide UpvalsBelowTop;
    assert ScannedObject(h[r], h'[r]);
    if h[r].UpVal? {
      ScannedUpValue(h, h', r);
    } else if h[r].Table? {
      ScannedModes(h, h', h[r].mt);
      if (part.KeyAt? || part.ValueAt?) && part.i < |h[r].entries| {
        assert ScannedEntry(h[r].entries[part.i], h'[r].entries[part.i]);
      }
    }
  }

  lemma ScannedEntryStays(h: Heap, h': Heap, r: Ref, i: nat)
    requires ScannedHeap(h, h') && r in h && h[r].Table? && i < |h[r].entries| && !h[r].entries[i].val.Nil?
    ensures EntryStays(h, h', r, i)
  {
    assert ScannedObject(h[r], h'[r]);
    assert ScannedEntry(h[r].entries[i], h'[r].entries[i]);
    forall v: Value ensures StringStays(h, h', v) {
      if v.Obj? && v.r in h { assert ScannedObject(h[v.r], h'[v.r]); }
    }
  }

  lemma ScannedUnseen(s: State, s': State)
    requires Inv(s) && ScannedHeap(s.heap, s'.heap)
    requires s'.running == s.running && s'.registry == s.registry && s'.types == s.types
    ensures Unseen(s, s')
  {
    hide Inv, SamePart, Reach, ScannedHeap, Steady, EntryStays, UpvalsBelowTop;
    InvCalm(s);
    ThreadsBelowTop(s.heap);
    forall r, part | r in s.heap ensures r in s'.heap && SamePart(s.heap, s'.heap, r, part) {
      ScannedPart(s.heap, s'.heap, r, part);
    }
    forall r, i | SteadyEntry(s, r, i) ensures EntryStays(s.heap, s'.heap, r, i) {
      ScannedEntryStays(s.heap, s'.heap, r, i);
    }
    ScannedKeys(s.heap, s'.heap);
    UndisturbedUnseen(s, s');
  }

  // Sweeping

  lemma SweptPart(s: State, s': State, r: Ref, part: Part)
    requires Safe(s) && SweepRel(s, s') && Threads(s'.heap) && r in LiveSet(s)
    ensures r in s'.heap && SamePart(s.heap, s'.heap, r, part)
  {
    hide IsClosed, SamePart;
    var h, h' := s.heap, s'.heap;
    assert r in h' && SweptObject(h, h[r], h'[r]);
    if h[r].Table? {
      SweptModes(s, s', r);
      SameTablePart(h, h', r, part);
    } else {
      if h'[r].UpVal? && h'[r].cell.Open? {
        assert UpvalOk(h', r);
        assert SweptObject(h, h[h[r].cell.th], h'[h[r].cell.th]);
      }
      OtherPart(h, h', r, part);
    }
  }

  lemma SameTablePart(h: Heap, h': Heap, r: Ref, part: Part)
    requires r in h && r in h' && h[r].Table? && h'[r] == h[r]
    requires WeakKeys(h', h[r].mt) == WeakKeys(h, h[r].mt) && WeakVals(h', h[r].mt) == WeakVals(h, h[r].mt)
    ensures SamePart(h, h', r, part)
  {
    hide WeakKeys, WeakVals;
  }

  lemma OtherPart(h: Heap, h': Heap, r: Ref, part: Part)
    requires r in h && r in h' && !h[r].Table? && SweptObject(h, h[r], h'[r])
    requires h'[r].UpVal? && h'[r].cell.Open? ==>
      h'[r].cell.th in h && h'[r].cell.th in h' && h'[h'[r].cell.th].Thread?
      && SweptObject(h, h[h'[r].cell.th], h'[h'[r].cell.th])
    ensures SamePart(h, h', r, part)
  {
  }

  lemma SweptEntryStays(s: State, s': State, r: Ref, i: nat)
    requires Safe(s) && SweepRel(s, s') && r in LiveSet(s) && s.heap[r].Table? && i < |s.heap[r].entries|
    requires !s.heap[r].entries[i].val.Nil?
    ensures EntryStays(s.heap, s'.heap, r, i)
  {
    var h, h', e := s.heap, s'.heap, s.heap[r].entries[i];
    SweptModes(s, s', r);
    forall v | v == e.val || (e.key.Live? && v == e.key.v) ensures StringStays(h, h', v) {
      if v.Obj? {
        assert e in h[r].entries && EntryHolds(e, v.r);
        assert Edge(h, true, r, v.r);
        assert SweptObject(h, h[v.r], h'[v.r]);
      }
    }
  }

  lemma SweptUnseen(s: State, s': State)
    requires Inv(s) && Inv(s') && SweepRel(s, s')
    requires s'.running == s.running && s'.registry == s.registry && s'.types == s.types
    ensures Unseen(s, s')
  {
    hide SamePart, Reach, SweepRel, Steady, EntryStays, Placed, Safe, PhaseOk, Threads, LiveSet;
    InvCalm(s');
    forall r | r in s.heap && Reach(s.heap, false, Roots(s), r)
      ensures r in LiveSet(s) && SameParts(s.heap, s'.heap, r)
    {
      KeptIsReachable(s.heap, Roots(s), r);
      LiveReach(s, r);
      forall part ensures r in s'.heap && SamePart(s.heap, s'.heap, r, part) {
        SweptPart(s, s', r, part);
      }
      SweptPart(s, s', r, Env);
    }
    forall r, i | SteadyEntry(s, r, i) && Reach(s.heap, false, Roots(s), r) ensures EntryStays(s.heap, s'.heap, r, i) {
      SweptEntryStays(s, s', r, i);
    }
    UndisturbedUnseen(s, s');
  }

  lemma LiveReach(s: State, r: Ref)
    requires Inv(s) && Reach(s.heap, true, Roots(s), r)
    ensures r in LiveSet(s)
  {
    ReachInClosed(s.heap, true, Roots(s), LiveSet(s), r);
  }

  // The atomic step

  lemma ClearedPart(h: Heap, m: Marks, h': Heap, weak: seq<Ref>, r: Ref, part: Part)
    requires ClearedHeap(h, m, h', weak) && r in h && forall o :: o in weak ==> IsWeak(h, o)
    ensures r in h' && SamePart(h, h', r, part)
  {
    ClearedUpValues(h, m, h', weak);
    forall o | o in h && h[o].Table? ensures h'[o] == h[o].(entries := h'[o].entries) {
      assert o in weak || h'[o] == h[o];
    }
  }

  lemma OnlyTablesCleared(h: Heap, m: Marks, h': Heap, weak: seq<Ref>, r: Ref)
    requires ClearedHeap(h, m, h', weak) && r in h && !h[r].Table?
    ensures r in h' && h'[r] == h[r]
  {
  }

  lemma ClearedEntryStays(s: State, h: Heap, m: Marks, h': Heap, weak: seq<Ref>, r: Ref, i: nat)
    requires ClearedHeap(h, m, h', weak) && r in h && h[r].Table? && i < |h[r].entries|
    requires forall o :: Reach(h, false, Roots(s), o) ==> NonWhite(m, o)
    requires var e := h[r].entries[i];
      Steady(s.(heap := h), e.val) && (e.key.Live? ==> Steady(s.(heap := h), e.key.v))
    ensures EntryStays(h, h', r, i)
  {
    hide Reach;
    assert Roots(s.(heap := h)) == Roots(s);
    var e := h[r].entries[i];
    assert r in weak || h'[r] == h[r];
    if r in weak {
      assert ClearedEntry(h, m, e, h'[r].entries[i]);
    }
    forall v: Value ensures StringStays(h, h', v) {
      if v.Obj? && v.r in h && h[v.r].String? { OnlyTablesCleared(h, m, h', weak, v.r); }
    }
  }

  lemma SamePartTrans(h: Heap, h1: Heap, h2: Heap, r: Ref, part: Part)
    requires r in h && r in h1 && r in h2 && SamePart(h, h1, r, part) && SamePart(h1, h2, r, part)
    ensures SamePart(h, h2, r, part)
  {
    hide SolidPart, PartOf;
  }

  lemma EntryStaysTrans(h: Heap, h1: Heap, h2: Heap, r: Ref, i: nat)
    requires r in h && h[r].Table? && i < |h[r].entries| && EntryStays(h, h1, r, i) && EntryStays(h1, h2, r, i)
    ensures EntryStays(h, h2, r, i)
  {
  }

  lemma SteadyScanned(s: State, h: Heap, v: Value)
    requires ScannedHeap(s.heap, h) && UpvalsBelowTop(s.heap) && Steady(s, v)
    ensures Steady(s.(heap := h), v)
  {
    hide ScannedHeap, Reach, UpvalsBelowTop;
    if v.Obj? {
      assert Roots(s.(heap := h)) == Roots(s);
      ScannedReach(s.heap, h, Roots(s), v.r);
      if v.r in s.heap {
        ScannedKind(s.heap, h, v.r);
      }
    }
  }

  lemma AtomicUnseen(s: State, hm: Heap, mm: Marks, s': State, a: set<Ref>)
    requires Inv(s) && AtomicDone(s, hm, mm, s', a) && Roots(s') == Roots(s)
    requires s'.running == s.running && s'.registry == s.registry && s'.types == s.types
    ensures Unseen(s, s')
  {
    hide Inv, SamePart, Reach, ScannedHeap, ClearedHeap, Steady, EntryStays, UpvalsBelowTop, StringsMarked, IsWeak,
      Roots, LiveSet, Kept;
    InvCalm(s);
    ThreadsBelowTop(s.heap);
    ScannedKeys(s.heap, hm);
    ClearedKeys(hm, mm, s'.heap, s'.weak);
    forall r, part | r in s.heap ensures SamePart(s.heap, s'.heap, r, part) {
      ScannedPart(s.heap, hm, r, part);
      ClearedPart(hm, mm, s'.heap, s'.weak, r, part);
      SamePartTrans(s.heap, hm, s'.heap, r, part);
    }
    forall r, i | SteadyEntry(s, r, i) ensures EntryStays(s.heap, s'.heap, r, i) {
      AtomicEntry(s, hm, mm, s', r, i);
    }
    UndisturbedUnseen(s, s');
  }

  lemma AtomicEntry(s: State, hm: Heap, mm: Marks, s': State, r: Ref, i: nat)
    requires ScannedHeap(s.heap, hm) && UpvalsBelowTop(s.heap) && ClearedHeap(hm, mm, s'.heap, s'.weak)
    requires SteadyEntry(s, r, i) && forall o :: Reach(hm, false, Roots(s), o) ==> NonWhite(mm, o)
    ensures EntryStays(s.heap, s'.heap, r, i)
  {
    hide Reach, ScannedHeap, ClearedHeap, Steady, UpvalsBelowTop, Roots;
    var e := s.heap[r].entries[i];
    ScannedEntryStays(s.heap, hm, r, i);
    SteadyScanned(s, hm, e.val);
    if e.key.Live? {
      SteadyScanned(s, hm, e.key.v);
    }
    ClearedEntryStays(s, hm, mm, s'.heap, s'.weak, r, i);
    EntryStaysTrans(s.heap, hm, s'.heap, r, i);
  }

  /** No single step of the collector is seen by the mutator. */
  lemma StepUnseen(s: State, s': State, a: set<Ref>)
    requires Inv(s) && Inv(s') && Stepped(s, s', a)
    requires s'.running == s.running && s'.registry == s.registry && s'.types == s.types
    ensures Unseen(s, s')
  {
    hide Inv, SweepRel, Advance, Roots, AtomicDone, LiveSet, Unseen;
    match s.phase
    case Pause => SameHeapUnseen(s, s');
    case Finalize => SameHeapUnseen(s, s');
    case Propagate =>
      if s.gray != [] {
        AdvanceScans(s.heap, s.mark, s'.heap, s'.mark);
        ScannedUnseen(s, s');
      } else {
        var hm, mm :| AtomicDone(s, hm, mm, s', a);
        AtomicUnseen(s, hm, mm, s', a);
      }
    case SweepString => SweptUnseen(s, s');
    case Sweep => SweptUnseen(s, s');
  }

  lemma AdvanceScans(h: Heap, m: Marks, h': Heap, m': Marks)
    requires Advance(h, m, h', m')
    ensures ScannedHeap(h, h')
  {
  }
}
