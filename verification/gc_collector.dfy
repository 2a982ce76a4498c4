/** The incremental mark-and-sweep collector. */
module Gc {
  import opened Shared
  import opened GcHeap
  import opened GcState
  import opened GcInv
  import opened GcSweep

  const NUM_TAGS: nat := 9  // LUA_TTHREAD + 1

  class GlobalState {
    var heap: Heap          // every allocated object
    var mark: Marks         // the `marked` field of each
    var currentwhite: bool
    var gcstate: Phase
    var rootgc: seq<Ref>    // list of all objects but strings and open upvalues
    var strt: seq<seq<Ref>> // the string table
    var sweepstrgc: nat
    var sweepgc: nat        // position in rootgc of the next object to sweep
    var gray: seq<Ref>
    var grayagain: seq<Ref>
    var weak: seq<Ref>
    var uvhead: seq<Ref>    // the open upvalues of all threads
    const mainthread: Ref
    const registry: Ref
    var running: Ref        // the thread that called the collector
    var types: seq<Value>   // metatables of the basic types
    var fixed: set<Ref>     // strings that are never collected

    /** A new state: the main thread, its table of globals and the registry. */
    constructor (main: Ref, globals: Ref, reg: Ref, buckets: nat, stackSize: nat)
      requires main != globals && main != reg && globals != reg && buckets > 0
      ensures Inv(View()) && gcstate.Pause? && mainthread == main && registry == reg && running == main
      ensures heap.Keys == {main, globals, reg} && heap[main].Thread? && |heap[main].stack| == stackSize
        && heap[main].top == 0
    {
      heap := map[main := Thread(Obj(globals), seq(stackSize, _ => Nil), 0, []),
                  globals := Table(Nil, false, false, []), reg := Table(Nil, false, false, [])];
      mark := map[main := White(false), globals := White(false), reg := White(false)];
      currentwhite, gcstate := false, Pause;
      rootgc, strt := [reg, globals, main], seq(buckets, _ => []);
      sweepstrgc, sweepgc := 0, 0;
      gray, grayagain, weak, uvhead := [], [], [], [];
      mainthread, registry, running := main, reg, main;
      types, fixed := seq(NUM_TAGS, _ => Nil), {};
      new;
      FreshInv(View(), globals);
    }

    ghost function View(): State
      reads this
    {
      State(heap, mark, currentwhite, gcstate, rootgc, strt, sweepstrgc, sweepgc,
            gray, grayagain, weak, uvhead, mainthread, registry, running, types, fixed)
    }

    ghost predicate Marking(x: set<Ref>, s: set<Ref>)
      reads this
    {
      && heap.Keys == mark.Keys
      && TriColor(heap, mark, gray, grayagain, weak, x) && (forall r :: r in x ==> NonWhite(mark, r))
      && UpvalsBelowTop(heap) && IsClosed(heap, false, s)
    }

    // ----------------------------------------------------------- marking

    /** Mark o and, through userdata and upvalues, what it leads to at once; s is any
        set of objects closed under strong references, so nothing beyond what o keeps
        alive is marked. */
    method ReallyMarkObject(o: Ref, ghost x: set<Ref>, ghost s: set<Ref>)
      requires Marking(x, s) && o in s && o in mark && mark[o].White?
      modifies `mark, `gray
      ensures Marking(x, s) && NonWhite(mark, o)
      ensures MarkRound(heap, old(mark), mark, s) && Whites(mark) <= Whites(old(mark))
      ensures GrayGrows(old(mark), old(gray), mark, gray)
      decreases Whites(mark), 0
    {
      hide TriColor, MarkRound, UpvalsBelowTop, IsClosed, GrayGrows;
      ghost var m0 := mark;
      mark := mark[o := Gray];
      assert o in Whites(m0) && o !in Whites(mark);
      Paint(heap, m0, gray, grayagain, weak, x, o, Gray);
      match heap[o]
      case String =>
        PaintRound(heap, m0, o, Gray, s);
        GrayGrowsOne(m0, old(gray), o, Gray);
        Settle(heap, mark, gray, grayagain, weak, x, o);
      case Udata(mt, env) =>
        mark := mark[o := Black];
        assert mark == m0[o := Black];
        Paint(heap, m0, gray, grayagain, weak, x, o, Black);
        PaintRound(heap, m0, o, Black, s);
        KeptInClosed(heap, s, o);
        GrayGrowsOne(m0, old(gray), o, Black);
        ghost var m1, g1 := mark, gray;
        MarkBoth(mt, env, x + {o}, s);
        GrayGrowsTrans(m0, g1, m1, g1, mark, gray);
        MarkRoundTrans(heap, m0, m1, mark, s);
        Darkens(heap, m1, mark, s);
        Settle(heap, mark, gray, grayagain, weak, x, o);
      case UpVal(cell) =>
        var v := UpValue(heap, cell);
        KeptInClosed(heap, s, o);
        GrayGrowsOne(m0, old(gray), o, Gray);
        ghost var m1, g1 := mark, gray;
        MarkValue(v, x + {o}, s);
        GrayGrowsTrans(m0, g1, m1, g1, mark, gray);
        ghost var m2 := mark;
        Darkens(heap, m1, m2, s);
        if cell.Closed? {
          mark := mark[o := Black];
        }
        Recolor(heap, m2, gray, grayagain, weak, x, o, mark[o]);
        Settle(heap, mark, gray, grayagain, weak, x, o);
        FirstMark(heap, m0, m1, m2, mark, o, s);
        GrayGrowsBlack(m0, g1, m2, gray, o);
      case _ =>
        PaintRound(heap, m0, o, Gray, s);
        gray := [o] + gray;
        GrayGrowsOne(m0, old(gray), o, Gray);
        LinkGray(heap, m0, gray[1..], grayagain, weak, x, o);
    }

    method MarkBoth(v: Value, w: Value, ghost x: set<Ref>, ghost s: set<Ref>)
      requires Marking(x, s) && (v.Obj? ==> v.r in s) && (w.Obj? ==> w.r in s)
      modifies `mark, `gray
      ensures Marking(x, s) && ValMarked(mark, v) && ValMarked(mark, w)
      ensures MarkRound(heap, old(mark), mark, s) && Whites(mark) <= Whites(old(mark))
      ensures GrayGrows(old(mark), old(gray), mark, gray)
      decreases Whites(mark), 2
    {
      hide TriColor, MarkRound, UpvalsBelowTop, IsClosed, GrayGrows;
      ghost var m1, g1 := mark, gray;
      MarkValue(v, x, s);
      ghost var m2, g2 := mark, gray;
      MarkValue(w, x, s);
      GrayGrowsTrans(m1, g1, m2, g2, mark, gray);
      MarkRoundTrans(heap, m1, m2, mark, s);
      Darkens(heap, m2, mark, s);
    }

    method MarkValue(v: Value, ghost x: set<Ref>, ghost s: set<Ref>)
      requires Marking(x, s) && (v.Obj? ==> v.r in s)
      modifies `mark, `gray
      ensures Marking(x, s) && ValMarked(mark, v)
      ensures MarkRound(heap, old(mark), mark, s) && Whites(mark) <= Whites(old(mark))
      ensures GrayGrows(old(mark), old(gray), mark, gray)
      decreases Whites(mark), 1
    {
      if v.Obj? && mark[v.r].White? {
        ReallyMarkObject(v.r, x, s);
      }
    }

    // --------------------------------------------------------- traversal

    method ScanEntry(o: Ref, i: nat, wk: bool, wv: bool, ghost s: set<Ref>)
      requires Marking({o}, s) && o in s && heap[o].Table? && i < |heap[o].entries|
      requires wk == WeakKeys(heap, heap[o].mt) && wv == WeakVals(heap, heap[o].mt)
      modifies `heap, `mark, `gray
      ensures Marking({o}, s) && Round(old(heap), old(mark), heap, mark, s)
      ensures heap[o].Table? && heap[o].mt == old(heap)[o].mt && |heap[o].entries| == |old(heap)[o].entries|
      ensures forall j :: 0 <= j < |heap[o].entries| && j != i ==> heap[o].entries[j] == old(heap)[o].entries[j]
      ensures EntryDone(mark, wk, wv, heap[o].entries[i])
      ensures GrayGrows(old(mark), old(gray), mark, gray)
    {
      hide TriColor, MarkRound, UpvalsBelowTop, IsClosed, GrayGrows;
      var e := heap[o].entries[i];
      ghost var h0, m0 := heap, mark;
      if e.val.Nil? {
        if e.key.Live? && e.key.v.Obj? {
          heap := heap[o := heap[o].(entries := heap[o].entries[i := Entry(Dead, Nil)])];
        }
        EntryScanned(h0, heap, o, i);
        ScannedTriColor(h0, heap, mark, gray, grayagain, weak, {o});
        ScannedClosed(h0, heap, s);
        NoMarks(heap, mark, s);
        GrayGrowsNot(mark, gray);
      } else {
        EntryKept(heap, s, o, i);
        SameHeap(heap);
        if !wk && e.key.Live? {
          MarkValue(e.key.v, {o}, s);
        } else {
          NoMarks(heap, mark, s);
          GrayGrowsNot(mark, gray);
        }
        ghost var m1, g1 := mark, gray;
        if !wv {
          MarkValue(e.val, {o}, s);
        } else {
          NoMarks(heap, mark, s);
          GrayGrowsNot(mark, gray);
        }
        Darkens(heap, m1, mark, s);
        MarkRoundTrans(heap, m0, m1, mark, s);
        GrayGrowsTrans(m0, old(gray), m1, g1, mark, gray);
      }
    }

    /** Scan a table; a weak one is linked in `weak` and keeps only its strong parts marked. */
    method TraverseTable(o: Ref, ghost s: set<Ref>) returns (isweak: bool)
      requires Marking({o}, s) && o in s && heap[o].Table? && o !in gray && o !in grayagain && o !in weak
      modifies `heap, `mark, `gray, `weak
      ensures Marking({o}, s) && Round(old(heap), old(mark), heap, mark, s) && TableDone(heap, mark, o)
      ensures o in heap && heap[o].Table? && isweak == (WeakKeys(heap, heap[o].mt) || WeakVals(heap, heap[o].mt))
      ensures weak == if isweak then [o] + old(weak) else old(weak)
      ensures GrayGrows(old(mark), old(gray), mark, gray)
    {
      hide TriColor, MarkRound, UpvalsBelowTop, IsClosed, GrayGrows;
      ghost var h0, m0 := heap, mark;
      var mt := heap[o].mt;
      KeptInClosed(heap, s, o);
      MarkValue(mt, {o}, s);
      SameHeap(heap);
      var wk, wv := WeakKeys(heap, mt), WeakVals(heap, mt);
      isweak := wk || wv;
      if isweak {
        LinkWeak(heap, mark, gray, grayagain, weak, o);
        weak := [o] + weak;
      }
      if wk && wv { return; }
      ghost var m1, g1 := mark, gray;
      TraverseEntries(o, mt, wk, wv, s);
      RoundTrans(h0, m0, h0, m1, heap, mark, s);
      GrayGrowsTrans(m0, old(gray), m1, g1, mark, gray);
    }

    /** The loops over the entries of a table. */
    method TraverseEntries(o: Ref, mt: Value, wk: bool, wv: bool, ghost s: set<Ref>)
      requires Marking({o}, s) && o in s && heap[o].Table? && heap[o].mt == mt && ValMarked(mark, mt)
      requires wk == WeakKeys(heap, mt) && wv == WeakVals(heap, mt)
      modifies `heap, `mark, `gray
      ensures Marking({o}, s) && Round(old(heap), old(mark), heap, mark, s) && TableDone(heap, mark, o)
      ensures o in heap && heap[o].Table? && heap[o].mt == mt && wk == WeakKeys(heap, mt) && wv == WeakVals(heap, mt)
      ensures GrayGrows(old(mark), old(gray), mark, gray)
    {
      hide TriColor, MarkRound, UpvalsBelowTop, IsClosed, GrayGrows, DoneFrom, TableDone, WeakKeys, WeakVals, EntryDone,
        ValMarked;
      ghost var h0, m0 := heap, mark;
      SameHeap(heap);
      NothingMarked(heap, mark, gray, s);
      assert Round(h0, m0, heap, mark, s);
      hide Round;
      var i := |heap[o].entries|;
      DoneNone(mark, wk, wv, heap[o].entries);
      while i > 0
        invariant Marking({o}, s) && Round(h0, m0, heap, mark, s)
        invariant heap[o].Table? && heap[o].mt == mt && 0 <= i <= |heap[o].entries|
        invariant wk == WeakKeys(heap, mt) && wv == WeakVals(heap, mt) && ValMarked(mark, mt)
        invariant DoneFrom(mark, wk, wv, heap[o].entries, i)
        invariant GrayGrows(m0, old(gray), mark, gray)
      {
        i := i - 1;
        ghost var h1, m1, g1 := heap, mark, gray;
        ScanEntry(o, i, wk, wv, s);
        RoundTrans(h0, m0, h1, m1, heap, mark, s);
        ModesStay(h1, m1, heap, mark, mt, s);
        DoneMore(h1, m1, heap, mark, wk, wv, h1[o].entries, heap[o].entries, i, s);
        GrayGrowsTrans(m0, old(gray), m1, g1, mark, gray);
      }
      DoneAll(heap, mark, o, wk, wv);
    }

    /** Mark a sequence of values held by o, a closure or prototype. */
    method TraverseHeld(o: Ref, ghost s: set<Ref>)
      requires Marking({o}, s) && o in s && (heap[o].Closure? || heap[o].Proto?)
      modifies `mark, `gray
      ensures Marking({o}, s) && MarkRound(heap, old(mark), mark, s)
      ensures forall k :: Mentions(heap, o, k) ==> NonWhite(mark, k)
      ensures GrayGrows(old(mark), old(gray), mark, gray)
    {
      hide TriColor, MarkRound, UpvalsBelowTop, IsClosed, GrayGrows;
      ghost var m0 := mark;
      var held := heap[o].held;
      NoMarks(heap, mark, s);
      GrayGrowsNot(mark, gray);
      KeptInClosed(heap, s, o);
      for i := 0 to |held|
        invariant Marking({o}, s) && MarkRound(heap, m0, mark, s)
        invariant forall j :: 0 <= j < i ==> ValMarked(mark, held[j])
        invariant GrayGrows(m0, old(gray), mark, gray)
      {
        ghost var m1, g1 := mark, gray;
        MarkValue(held[i], {o}, s);
        MarkRoundTrans(heap, m0, m1, mark, s);
        Darkens(heap, m1, mark, s);
        GrayGrowsTrans(m0, old(gray), m1, g1, mark, gray);
      }
    }

    /** Mark the live part of a stack and clear the rest up to the highest frame limit. */
    method TraverseStack(o: Ref, ghost s: set<Ref>)
      requires Marking({}, s) && o in s && o in heap && heap[o].Thread?
      modifies `heap, `mark, `gray
      ensures Marking({}, s) && Round(old(heap), old(mark), heap, mark, s) && ThreadDone(heap, mark, o)
      ensures GrayGrows(old(mark), old(gray), mark, gray)
    {
      hide TriColor, MarkRound, UpvalsBelowTop, IsClosed, GrayGrows;
      ghost var h0, m0 := heap, mark;
      var th := heap[o];
      KeptInClosed(heap, s, o);
      MarkValue(th.gt, {}, s);
      var i := 0;
      while i < th.top && i < |th.stack|
        invariant 0 <= i <= |th.stack| && i <= th.top && heap == h0
        invariant Marking({}, s) && MarkRound(heap, m0, mark, s) && ValMarked(mark, th.gt)
        invariant forall j :: 0 <= j < i ==> ValMarked(mark, th.stack[j])
        invariant GrayGrows(m0, old(gray), mark, gray)
      {
        ghost var m1, g1 := mark, gray;
        MarkValue(th.stack[i], {}, s);
        MarkRoundTrans(heap, m0, m1, mark, s);
        Darkens(heap, m1, mark, s);
        GrayGrowsTrans(m0, old(gray), m1, g1, mark, gray);
        i := i + 1;
      }
      var stack := th.stack;
      while i < |stack|
        modifies {}
        invariant 0 <= i <= |stack| == |th.stack| && (th.top <= i || i == |stack|)
        invariant forall j :: 0 <= j < i ==> stack[j] == if j < th.top then th.stack[j] else Nil
        invariant forall j :: i <= j < |stack| ==> stack[j] == th.stack[j]
      {
        stack := stack[i := Nil];
        i := i + 1;
      }
      heap := heap[o := th.(stack := stack)];
      StackScanned(h0, heap, o);
      ScannedTriColor(h0, heap, mark, gray, grayagain, weak, {});
      ScannedClosed(h0, heap, s);
      ScannedMarkRound(h0, heap, m0, mark, s);
    }

    /** Traverse one gray object, turning it black; a thread or a weak table goes back to gray. */
    method PropagateMark(ghost s: set<Ref>)
      requires Marking({}, s) && gray != [] && (forall r :: NonWhite(mark, r) ==> r in s)
      modifies `heap, `mark, `gray, `grayagain, `weak
      ensures Marking({}, s) && (forall r :: NonWhite(mark, r) ==> r in s)
      ensures Advance(old(heap), old(mark), heap, mark)
      ensures Whites(mark) < Whites(old(mark)) || (Whites(mark) == Whites(old(mark)) && gray == old(gray)[1..])
      ensures weak == old(weak) || (weak == [old(gray)[0]] + old(weak) && WeakDone(heap, mark, old(gray)[0]))
      ensures grayagain == old(grayagain) || (grayagain == [old(gray)[0]] + old(grayagain)
        && ThreadDone(heap, mark, old(gray)[0]))
      ensures var o, kind := old(gray)[0], old(heap)[old(gray)[0]];
        && o in old(heap) && o in heap && o in mark
        && (grayagain == old(grayagain) <==> !kind.Thread?) && (weak == old(weak) <==> !IsWeak(heap, o))
        && mark[o] == if kind.Thread? || IsWeak(heap, o) then Gray else Black
    {
      hide TriColor, MarkRound, UpvalsBelowTop, IsClosed, ScannedHeap, Advance, TableDone, WeakDone, ThreadDone,
        Mentions, GrayGrows;
      var o := gray[0];
      ghost var h0, m0 := heap, mark;
      assert {} + {o} == {o};
      PopGray(heap, mark, gray, grayagain, weak, s);
      mark := mark[o := Black];
      ghost var m1 := mark;
      gray := gray[1..];
      if heap[o].Table? {
        var isweak := TraverseTable(o, s);
        ghost var m2 := mark;
        GrayShrinks(m1, old(gray)[1..], m2, gray);
        Darkens(heap, m1, m2, s);
        if isweak {
          mark := mark[o := Gray];
          Recolor(heap, m2, gray, grayagain, weak, {}, o, Gray);
          DoneRecolor(heap, m2, o);
          WeakIs(heap, mark, o);
        } else {
          StrongTableDone(heap, mark, o);
        }
        Settle(heap, mark, gray, grayagain, weak, {}, o);
        Advanced(h0, m0, heap, m1, m2, mark, o, s);
      } else if heap[o].Thread? {
        grayagain := [o] + grayagain;
        mark := mark[o := Gray];
        Requeue(heap, m0, gray, grayagain[1..], weak, o);
        assert mark == m0;
        TraverseStack(o, s);
        ThreadStays(h0, heap, m0, mark, o, s);
        GrayShrinks(m0, old(gray)[1..], mark, gray);
        Advanced(h0, m0, heap, m0, mark, mark, o, s);
      } else {
        TraverseHeld(o, s);
        GrayShrinks(m1, old(gray)[1..], mark, gray);
        Darkens(heap, m1, mark, s);
        Settle(heap, mark, gray, grayagain, weak, {}, o);
        SameHeap(heap);
        Advanced(h0, m0, heap, m1, mark, mark, o, s);
      }
    }

    method PropagateAll(ghost s: set<Ref>)
      requires Marking({}, s) && (forall r :: NonWhite(mark, r) ==> r in s)
      modifies `heap, `mark, `gray, `grayagain, `weak
      ensures Marking({}, s) && (forall r :: NonWhite(mark, r) ==> r in s) && gray == []
      ensures Advance(old(heap), old(mark), heap, mark)
      ensures forall r :: r in weak ==> r in old(weak) || WeakDone(heap, mark, r)
      ensures forall r :: r in grayagain ==> r in old(grayagain) || ThreadDone(heap, mark, r)
    {
      hide TriColor, UpvalsBelowTop, IsClosed, Advance, TableDone, WeakDone, ThreadDone;
      ghost var h0, m0, w0, g0 := heap, mark, weak, grayagain;
      AdvanceRefl(heap, mark);
      while gray != []
        invariant Marking({}, s) && (forall r :: NonWhite(mark, r) ==> r in s)
        invariant Advance(h0, m0, heap, mark)
        invariant forall r :: r in weak ==> r in w0 || WeakDone(heap, mark, r)
        invariant forall r :: r in grayagain ==> r in g0 || ThreadDone(heap, mark, r)
        decreases Whites(mark), |gray|
      {
        ghost var h1, m1 := heap, mark;
        PropagateMark(s);
        AdvanceTrans(h0, m0, h1, m1, heap, mark);
        forall r
          ensures WeakDone(h1, m1, r) ==> WeakDone(heap, mark, r)
          ensures ThreadDone(h1, m1, r) ==> ThreadDone(heap, mark, r)
        {
          DoneStays(h1, m1, heap, mark, r);
        }
      }
    }

    /** Open upvalues are gray, never black, and their values may have changed. */
    method RemarkUpvals(ghost s: set<Ref>)
      requires Marking({}, s) && (forall r :: NonWhite(mark, r) ==> r in s)
      requires forall u :: u in heap && IsOpen(heap[u]) ==> u in uvhead
      modifies `mark, `gray
      ensures Marking({}, s) && (forall r :: NonWhite(mark, r) ==> r in s)
      ensures Advance(heap, old(mark), heap, mark) && UpvalsDone(heap, mark)
    {
      hide TriColor, MarkRound, UpvalsBelowTop, IsClosed, GrayGrows, Advance;
      ghost var m0 := mark;
      NoMarks(heap, mark, s);
      for i := 0 to |uvhead|
        invariant Marking({}, s) && MarkRound(heap, m0, mark, s)
        invariant forall u :: u in uvhead[..i] && u in heap && IsOpen(heap[u]) && NonWhite(m0, u) ==>
          ValMarked(mark, UpValue(heap, heap[u].cell))
      {
        ghost var m1 := mark;
        var u := uvhead[i];
        OpenIsGray(heap, mark, gray, grayagain, weak, u);
        Darkens(heap, m0, mark, s);
        if u in heap && heap[u].UpVal? && mark[u].Gray? {
          RoundWithin(heap, m0, mark, s);
          KeptInClosed(heap, s, u);
          MarkValue(UpValue(heap, heap[u].cell), {}, s);
          MarkRoundTrans(heap, m0, m1, mark, s);
          Darkens(heap, m1, mark, s);
        }
      }
      RoundWithin(heap, m0, mark, s);
      UpvalsRemarked(heap, m0, mark, s, uvhead);
    }

    method MarkTypes(ghost s: set<Ref>)
      requires Marking({}, s) && (forall v :: v in types && v.Obj? ==> v.r in s)
      modifies `mark, `gray
      ensures Marking({}, s) && MarkRound(heap, old(mark), mark, s)
      ensures forall v :: v in types ==> ValMarked(mark, v)
    {
      hide TriColor, MarkRound, UpvalsBelowTop, IsClosed, GrayGrows;
      ghost var m0 := mark;
      NoMarks(heap, mark, s);
      for i := 0 to |types|
        invariant Marking({}, s) && MarkRound(heap, m0, mark, s)
        invariant forall j :: 0 <= j < i ==> ValMarked(mark, types[j])
      {
        ghost var m1 := mark;
        MarkValue(types[i], {}, s);
        MarkRoundTrans(heap, m0, m1, mark, s);
        Darkens(heap, m1, mark, s);
      }
    }

    /** Can this key or value be removed from a weak table? Strings count as values and are kept. */
    method IsCleared(v: Value) returns (b: bool)
      requires v.Obj? ==> v.r in mark && v.r in heap
      modifies `mark
      ensures StringsMarked(heap, old(mark), mark)
      ensures b == Doomed(heap, old(mark), v) && (!b ==> ValMarked(mark, v))
    {
      if !v.Obj? { return false; }
      if heap[v.r].String? {
        if mark[v.r].White? {
          mark := mark[v.r := Gray];
        }
        return false;
      }
      return mark[v.r].White?;
    }

    /** One entry, without its value and key if one of them is about to be collected. */
    method ClearEntry(e: Entry, ghost h0: Heap, ghost m0: Marks) returns (e': Entry)
      requires heap == h0 && heap.Keys == mark.Keys && StringsMarked(h0, m0, mark) && forall k :: EntryHolds(e, k) ==>
        k in heap
      modifies `mark
      ensures heap.Keys == mark.Keys && StringsMarked(h0, m0, mark) && StringsMarked(h0, old(mark), mark)
        && EntryMarked(mark, e') && ClearedEntry(h0, m0, e, e')
    {
      e' := e;
      if !e.val.Nil? {
        assert e.val.Obj? ==> EntryHolds(e, e.val.r);
        assert e.key.Live? && e.key.v.Obj? ==> EntryHolds(e, e.key.v.r);
        var c := false;
        if e.key.Live? {
          c := IsCleared(e.key.v);
        }
        if !c {
          c := IsCleared(e.val);
        }
        if c {
          e' := Entry(if e.key.Live? && e.key.v.Obj? then Dead else e.key, Nil);
        }
      }
    }

    /** Remove from one weak table the entries whose key or value is about to be collected. */
    method ClearTable(o: Ref)
      requires o in heap && heap[o].Table? && heap.Keys == mark.Keys && ValMarked(mark, heap[o].mt)
      requires forall k :: Holds(heap, o, k) ==> k in heap
      modifies `heap, `mark
      ensures heap.Keys == mark.Keys == old(heap).Keys && StringsMarked(old(heap), old(mark), mark)
      ensures ClearedHeap(old(heap), old(mark), heap, [o]) && TableCleared(heap, mark, o)
    {
      ghost var h0, m0 := heap, mark;
      var es := heap[o].entries;
      var i := |es|;
      while i > 0
        invariant 0 <= i <= |es| == |h0[o].entries| && heap == h0 && StringsMarked(h0, m0, mark)
        invariant forall j :: 0 <= j < i ==> es[j] == h0[o].entries[j]
        invariant forall j :: i <= j < |es| ==>
          EntryMarked(mark, es[j]) && ClearedEntry(h0, m0, h0[o].entries[j], es[j])
      {
        i := i - 1;
        ghost var m1 := mark;
        assert es[i] in h0[o].entries;
        assert forall k :: EntryHolds(es[i], k) ==> Holds(h0, o, k);
        var e := ClearEntry(es[i], h0, m0);
        EntriesStay(h0, m1, mark, es, i + 1);
        es := es[i := e];
      }
      heap := heap[o := heap[o].(entries := es)];
    }

    method ClearTables()
      requires heap.Keys == mark.Keys && NoDup(weak)
      requires forall o :: o in weak ==> o in heap && heap[o].Table? && ValMarked(mark, heap[o].mt)
      requires forall o, k :: o in weak && Holds(heap, o, k) ==> k in heap
      modifies `heap, `mark
      ensures heap.Keys == mark.Keys && StringsMarked(old(heap), old(mark), mark)
      ensures ClearedHeap(old(heap), old(mark), heap, weak) && (weak == [] ==> mark == old(mark))
      ensures forall o :: o in weak ==> TableCleared(heap, mark, o)
    {
      hide ClearedHeap, StringsMarked, TableCleared, Holds;
      ghost var h0, m0 := heap, mark;
      ClearNone(heap, mark);
      assert weak[..0] == [];
      for i := 0 to |weak|
        invariant heap.Keys == mark.Keys == h0.Keys && StringsMarked(h0, m0, mark)
        invariant ClearedHeap(h0, m0, heap, weak[..i]) && (i == 0 ==> mark == m0)
        invariant forall j :: 0 <= j < i ==> TableCleared(heap, mark, weak[j])
      {
        var o := weak[i];
        ghost var h1, m1 := heap, mark;
        assert o !in weak[..i];
        StillToClear(h0, m0, heap, mark, weak[..i], o);
        ClearTable(o);
        assert weak[..i + 1] == weak[..i] + [o];
        ClearMore(h0, m0, h1, m1, heap, mark, weak[..i], o);
        forall j | 0 <= j < i ensures TableCleared(heap, mark, weak[j]) {
          ClearedStays(h1, m1, heap, mark, weak[j], o);
        }
      }
      assert weak[..|weak|] == weak;
    }

    /** The atomic phase began with heap h0 and marks m0 and has remarked the open upvalues. */
    ghost predicate Stage(h0: Heap, m0: Marks, s: set<Ref>)
      reads this
    {
      && Marking({}, s) && (forall r :: NonWhite(mark, r) ==> r in s)
      && h0.Keys == m0.Keys && UpvalsBelowTop(h0) && Advance(h0, m0, heap, mark) && UpvalsDone(heap, mark)
    }

    method PropagateStage(ghost h0: Heap, ghost m0: Marks, ghost s: set<Ref>)
      requires Stage(h0, m0, s)
      modifies `heap, `mark, `gray, `grayagain, `weak
      ensures Stage(h0, m0, s) && gray == [] && (forall r :: NonWhite(old(mark), r) ==> NonWhite(mark, r))
      ensures forall r :: r in weak ==>
        (r in old(weak) && !WeakDone(old(heap), old(mark), r)) || WeakDone(heap, mark, r)
      ensures forall r :: r in grayagain ==> r in old(grayagain) || ThreadDone(heap, mark, r)
    {
      hide TriColor, UpvalsBelowTop, IsClosed, Advance, TableDone, WeakDone, ThreadDone, UpvalsDone;
      ghost var h1, m1 := heap, mark;
      PropagateAll(s);
      UpvalsStay(h1, m1, heap, mark);
      AdvanceTrans(h0, m0, h1, m1, heap, mark);
      AdvanceMarks(h1, m1, heap, mark);
      forall r | WeakDone(h1, m1, r) ensures WeakDone(heap, mark, r) {
        DoneStays(h1, m1, heap, mark, r);
      }
    }

    /** Mark the thread that runs and the basic metatables, which no barrier covers. */
    method MarkRoots(ghost h0: Heap, ghost m0: Marks, ghost s: set<Ref>)
      requires Stage(h0, m0, s) && Roots(View()) <= s
      modifies `mark, `gray
      ensures Stage(h0, m0, s) && NonWhite(mark, running) && forall v :: v in types ==> ValMarked(mark, v)
    {
      hide TriColor, MarkRound, UpvalsBelowTop, IsClosed, Advance, UpvalsDone, GrayGrows;
      ghost var m1 := mark;
      MarkValue(Obj(running), {}, s);
      ghost var m2 := mark;
      MarkTypes(s);
      MarkRoundTrans(heap, m1, m2, mark, s);
      Darkens(heap, m2, mark, s);
      RoundWithin(heap, m1, mark, s);
      UpvalsStay(heap, m1, heap, mark);
      AdvanceTrans(h0, m0, heap, m1, heap, mark);
    }

    /** Remark weak tables, then what a backward barrier caught. */
    method RemarkLists(ghost h0: Heap, ghost m0: Marks, ghost s: set<Ref>)
      requires Stage(h0, m0, s) && Roots(View()) <= s && gray == []
      modifies `heap, `mark, `gray, `grayagain, `weak
      ensures Stage(h0, m0, s) && gray == []
      ensures NonWhite(mark, running) && forall v :: v in types ==> ValMarked(mark, v)
      ensures forall r :: r in weak ==> WeakDone(heap, mark, r)
      ensures forall r :: r in grayagain ==> ThreadDone(heap, mark, r)
    {
      hide TriColor, UpvalsBelowTop, IsClosed, Advance, TableDone, WeakDone, ThreadDone, UpvalsDone;
      RemarkWeak(h0, m0, s);
      NextAgain(heap, mark, grayagain, weak);
      gray, grayagain := grayagain, [];
      PropagateStage(h0, m0, s);
    }

    /** Remark weak tables, the running thread and the basic metatables. */
    method RemarkWeak(ghost h0: Heap, ghost m0: Marks, ghost s: set<Ref>)
      requires Stage(h0, m0, s) && Roots(View()) <= s && gray == []
      modifies `heap, `mark, `gray, `grayagain, `weak
      ensures Stage(h0, m0, s) && gray == []
      ensures NonWhite(mark, running) && forall v :: v in types ==> ValMarked(mark, v)
      ensures forall r :: r in weak ==> WeakDone(heap, mark, r)
    {
      hide TriColor, UpvalsBelowTop, IsClosed, Advance, TableDone, WeakDone, ThreadDone, UpvalsDone;
      NextList(heap, mark, grayagain, weak);
      gray, weak := weak, [];
      MarkRoots(h0, m0, s);
      PropagateStage(h0, m0, s);
    }

    /** The marking part of the atomic phase: remark what the mutator may have changed
        without a barrier, then weak tables, then what a backward barrier caught. */
    method FinishMarking(ghost s: set<Ref>)
      requires Inv(View()) && gcstate.Propagate? && gray == []
      requires IsClosed(heap, false, s) && Roots(View()) <= s && (forall r :: NonWhite(mark, r) ==> r in s)
      modifies `heap, `mark, `gray, `grayagain, `weak
      ensures Marked(old(View()), View()) && (forall r :: NonWhite(mark, r) ==> r in s)
    {
      hide TriColor, MarkRound, UpvalsBelowTop, IsClosed, Advance, TableDone, WeakDone, ThreadDone, UpvalsDone, Inv,
        Marked;
      ghost var h0, m0, s0 := heap, mark, View();
      StartAtomic(View());
      RemarkUpvals(s);
      PropagateStage(h0, m0, s);
      RemarkLists(h0, m0, s);
      EndMarking(s0, View());
    }

    /** Finish the mark phase in one go and flip the current white. hm and mm are the heap
        and the marks when marking ends; s bounds what may be found alive. */
    method Atomic(ghost s: set<Ref>) returns (ghost hm: Heap, ghost mm: Marks)
      requires Inv(View()) && gcstate.Propagate? && gray == []
      requires IsClosed(heap, false, s) && Roots(View()) <= s && (forall r :: NonWhite(mark, r) ==> r in s)
      modifies `heap, `mark, `gray, `grayagain, `weak, `currentwhite, `sweepstrgc, `sweepgc, `gcstate
      ensures Inv(View()) && gcstate.SweepString? && currentwhite != old(currentwhite)
      ensures ScannedHeap(old(heap), hm) && ClearedHeap(hm, mm, heap, weak) && StringsMarked(hm, mm, mark)
      ensures forall r :: Reach(hm, false, Roots(View()), r) ==> NonWhite(mm, r)
      ensures forall r :: NonWhite(mm, r) ==> r in s
      ensures (forall o :: o in hm ==> !IsWeak(hm, o)) ==> mark == mm
      ensures (forall o :: o in weak ==> IsWeak(hm, o)) && LiveSet(View()) == Kept(View())
    {
      hide TriColor, UpvalsDone, TableDone, WeakDone, ThreadDone, IsClosed, AllDone, Placed, Inv, ScannedHeap,
        ClearedHeap, StringsMarked, TableCleared, Reach, Holds, IsWeak, NoOtherWhite, LiveSet, Kept;
      ghost var s0 := View();
      FinishMarking(s);
      ghost var s1 := View();
      hm, mm := heap, mark;
      WhatIsMarked(s0, s1);
      forall r | Reach(hm, false, Roots(s1), r) ensures NonWhite(mm, r) {
        KeptIsMarked(s1, r);
      }
      Flip(s0, s1);
    }

    /** The end of the atomic step: weak tables are cleared and the other white becomes current. */
    method Flip(ghost s0: State, ghost s1: State)
      requires s1 == View() && Marked(s0, s1) && gcstate.Propagate?
      modifies `heap, `mark, `currentwhite, `sweepstrgc, `sweepgc, `gcstate
      ensures Inv(View()) && View() == Flipped(s1, heap, mark) && ClearedHeap(s1.heap, s1.mark, heap, weak)
        && StringsMarked(s1.heap, s1.mark, mark)
      ensures (weak == [] ==> mark == s1.mark) && LiveSet(View()) == Kept(View())
    {
      hide TriColor, UpvalsDone, TableDone, WeakDone, ThreadDone, IsClosed, AllDone, Placed, Inv, ScannedHeap,
        ClearedHeap, StringsMarked, TableCleared, Reach, Holds, IsWeak, NoOtherWhite, LiveSet, Kept, Marked;
      WhatIsMarked(s0, s1);
      ClearTables();
      assert heap.Keys == s1.heap.Keys by { ClearedKeys(s1.heap, s1.mark, heap, weak); }
      MarkedFlip(s0, s1, heap, mark);
      currentwhite := !currentwhite;
      sweepstrgc := 0;
      sweepgc := 0;
      gcstate := SweepString;
      FlipLive(s1, View());
    }

    // ---------------------------------------------------------- sweeping

    /** Is this object alive? Fixed objects always are. */
    predicate NotDead(r: Ref)
      reads this
      requires r in mark
    {
      mark[r] != White(!currentwhite) || r in fixed
    }

    method MakeWhite(r: Ref)
      requires Calm(View()) && r in heap && r in mark && NotDead(r)
      modifies `mark
      ensures Calm(View()) && SweepRel(old(View()), View()) && mark == old(mark)[r := White(currentwhite)]
    {
      hide Calm, SweepRel;
      Whitened(View(), r);
      mark := mark[r := White(currentwhite)];
    }

    method FreeString(b: nat, i: nat)
      requires Calm(View()) && b < |strt| && i < |strt[b]| && strt[b][i] in mark && !NotDead(strt[b][i])
      modifies `heap, `mark, `strt
      ensures Calm(View()) && SweepRel(old(View()), View())
      ensures strt == old(strt)[b := CutAt(old(strt)[b], i)]
      ensures heap == old(heap) - {old(strt)[b][i]} && mark == old(mark) - {old(strt)[b][i]}
    {
      hide Calm, SweepRel;
      StringFreed(View(), b, i);
      var curr := strt[b][i];
      strt := strt[b := CutAt(strt[b], i)];
      heap, mark := heap - {curr}, mark - {curr};
    }

    method FreeUpval(t: Ref, i: nat)
      requires Calm(View()) && t in heap && heap[t].Thread? && i < |heap[t].open|
      requires heap[t].open[i] in mark && !NotDead(heap[t].open[i])
      modifies `heap, `mark, `uvhead
      ensures Calm(View()) && SweepRel(old(View()), View()) && View() == UpvalFreed(old(View()), t, i)
    {
      hide Calm, SweepRel;
      UpvalFreedKeeps(View(), t, i);
      var u := heap[t].open[i];
      heap := heap[t := heap[t].(open := CutAt(heap[t].open, i))] - {u};
      mark := mark - {u};
      uvhead := Without(uvhead, u);
    }

    /** Sweep one list of the string table. */
    method SweepStrings(b: nat)
      requires Calm(View()) && b < |strt|
      modifies `heap, `mark, `strt
      ensures Calm(View()) && SweepRel(old(View()), View())
      ensures |strt| == |old(strt)| && forall c :: 0 <= c < |strt| && c != b ==> strt[c] == old(strt)[c]
      ensures forall r :: r in strt[b] ==> r in mark && mark[r] == White(currentwhite)
    {
      hide Calm, SweepRel, WhiteUpTo, Placed, Threads;
      ghost var s0 := View();
      CalmFacts(s0);
      WhiteNone(mark, currentwhite, strt[b]);
      var i := 0;
      while i < |strt[b]|
        invariant Calm(View()) && SweepRel(s0, View())
        invariant |strt| == |s0.strt| && b < |strt| && i <= |strt[b]|
        invariant forall c :: 0 <= c < |strt| && c != b ==> strt[c] == s0.strt[c]
        invariant WhiteUpTo(mark, currentwhite, strt[b], i)
        decreases |strt[b]| - i
      {
        ghost var s1 := View();
        StringInHeap(s1, b, i);
        BucketsApart(s1, b, i);
        CalmFacts(s1);
        WhiteStep(mark, currentwhite, strt[b], i);
        if NotDead(strt[b][i]) {
          MakeWhite(strt[b][i]);
          i := i + 1;
        } else {
          FreeString(b, i);
        }
        SweepRelTrans(s0, s1, View());
      }
      WhiteAll(mark, currentwhite, strt[b]);
    }

    /** Sweep the open upvalues of a thread. */
    method SweepOpen(t: Ref)
      requires Calm(View()) && t in heap && heap[t].Thread?
      modifies `heap, `mark, `uvhead
      ensures Calm(View()) && SweepRel(old(View()), View())
      ensures t in heap && heap[t].Thread? && forall u :: u in heap[t].open ==>
        u in mark && mark[u] == White(currentwhite)
      ensures OnlyUnlinked(old(heap), heap, t)
    {
      hide Calm, SweepRel, OnlyUnlinked, WhiteUpTo, Placed, Threads;
      ghost var s0 := View();
      CalmFacts(s0);
      WhiteNone(mark, currentwhite, heap[t].open);
      Unlinked(s0, t);
      var i := 0;
      while i < |heap[t].open|
        invariant Calm(View()) && SweepRel(s0, View())
        invariant t in heap && heap[t].Thread? && i <= |heap[t].open| && OnlyUnlinked(s0.heap, heap, t)
        invariant WhiteUpTo(mark, currentwhite, heap[t].open, i)
        decreases |heap[t].open| - i
      {
        ghost var s1 := View();
        CalmFacts(s1);
        OpenApart(s1, t, i);
        WhiteStep(mark, currentwhite, heap[t].open, i);
        if NotDead(heap[t].open[i]) {
          MakeWhite(heap[t].open[i]);
          i := i + 1;
        } else {
          FreeUpval(t, i);
          UnlinkedMore(s0.heap, s1, t, i);
        }
        SweepRelTrans(s0, s1, View());
      }
      WhiteAll(mark, currentwhite, heap[t].open);
    }

    // --------------------------------------------------- closing upvalues

    /** Copy the value into the upvalue at the head of t's list and link it in rootgc. */
    method Detach(t: Ref)
      requires t in heap && heap[t].Thread? && heap[t].open != [] && heap[t].open[0] in heap
        && heap[heap[t].open[0]].UpVal?
      modifies `heap, `uvhead, `rootgc, `sweepgc
      ensures View() == UpvalClosed(old(View()), t)
    {
      var u := heap[t].open[0];
      var v := UpValue(heap, heap[u].cell);
      heap := heap[t := heap[t].(open := heap[t].open[1..])][u := UpVal(Closed(v))];
      uvhead := Without(uvhead, u);
      rootgc := [u] + rootgc;
      sweepgc := if sweepgc == 0 then 0 else sweepgc + 1;
    }

    /** In the mark phase a gray upvalue turns black as it is closed, and its value is marked. */
    method BlackenClosed(u: Ref, ghost s0: State, ghost t: Ref)
      requires Inv(s0) && s0.phase.Propagate? && t in s0.heap && s0.heap[t].Thread? && s0.heap[t].open != []
      requires u == s0.heap[t].open[0] && u in s0.heap && IsOpen(s0.heap[u]) && u in s0.mark && s0.mark[u].Gray?
      requires View() == UpvalClosed(s0, t) && Calm(View())
      modifies `mark, `gray
      ensures Inv(View()) && NoOtherWhite(View()) && mark.Keys == old(mark).Keys
    {
      hide TriColor, MarkRound, UpvalsBelowTop, IsClosed, GrayGrows, Placed, Safe, Calm, Advance, Inv, NoOtherWhite;
      ghost var s1 := View();
      BlackenStart(s0, t, u, s1);
      mark := mark[u := Black];
      MarkValue(heap[u].cell.v, {u}, heap.Keys);
      BlackenedInv(s1, View(), u);
    }

    /** Close the live open upvalue of t with the highest level (luaC_linkupval). */
    method CloseLive(t: Ref)
      requires Inv(View()) && t in heap && heap[t].Thread? && heap[t].open != [] && heap[t].open[0] in mark
        && NotDead(heap[t].open[0])
      modifies `heap, `mark, `gray, `uvhead, `rootgc, `sweepgc
      ensures Inv(View()) && CloseRel(old(View()), View())
      ensures View() == UpvalClosed(old(View()), t).(mark := mark, gray := gray)
    {
      hide TriColor, Placed, Safe, Calm, PhaseOk, SweepRel, CloseRel, Inv, NoOtherWhite, Threads;
      ghost var s0 := View();
      InvCalm(s0);
      var u := heap[t].open[0];
      OpenInHeap(heap, t, u);
      UpvalClosedKeeps(s0, t);
      Detach(t);
      ghost var s1 := View();
      SweepIsClose(s0, s1);
      if mark[u].Gray? {
        if gcstate.Propagate? {
          BlackenClosed(u, s0, t);
          CloseDarker(s0, s1, View());
        } else {
          MakeWhite(u);
          CalmFacts(s1);
          SweepRelTrans(s0, s1, View());
          SweepIsClose(s0, View());
          ClosedPhase(s0, t, View());
          CalmInv(View());
        }
      } else {
        WhiteClosed(s0, t);
      }
    }

    /** Close, or free if dead, the open upvalue of t with the highest level. */
    method CloseHead(t: Ref)
      requires Inv(View()) && t in heap && heap[t].Thread? && heap[t].open != []
      modifies `heap, `mark, `gray, `uvhead, `rootgc, `sweepgc
      ensures Inv(View()) && CloseRel(old(View()), View())
      ensures t in heap && heap[t].Thread? && heap[t] == old(heap)[t].(open := old(heap)[t].open[1..])
      ensures FrontGrew(old(View()), View()) && HeadGone(old(heap), heap, t)
    {
      hide Placed, Safe, Calm, PhaseOk, SweepRel, CloseRel, Inv, Threads;
      ghost var s0 := View();
      InvCalm(s0);
      OpenApart(s0, t, 0);
      HeadIs(s0, t);
      if NotDead(heap[t].open[0]) {
        OpenInHeap(heap, t, heap[t].open[0]);
        CloseLive(t);
      } else {
        DeadInSweep(s0, heap[t].open[0]);
        FreedPhase(s0, t);
        CutHead(heap[t].open);
        FreeUpval(t, 0);
        CalmInv(View());
        SweepIsClose(s0, View());
      }
    }

    /** luaF_close: close every open upvalue of t at or above a level. */
    method Close(t: Ref, level: nat)
      requires Inv(View()) && t in heap && heap[t].Thread?
      modifies `heap, `mark, `gray, `uvhead, `rootgc, `sweepgc
      ensures Inv(View()) && CloseRel(old(View()), View())
      ensures t in heap && heap[t].Thread? && heap[t] == old(heap)[t].(open := heap[t].open)
      ensures forall u :: u in heap[t].open ==> u in heap && IsOpen(heap[u]) && heap[u].cell.slot < level
      ensures level == 0 ==> heap[t].open == []
      ensures FrontGrew(old(View()), View()) && OnlyClosed(old(heap), heap, t, level)
    {
      hide Inv, CloseRel, FrontGrew, Placed, OnlyClosed, HeadGone;
      ghost var s0 := View();
      CloseNothing(s0);
      ClosedNone(s0.heap, t, level);
      while heap[t].open != [] && heap[t].open[0] in heap && heap[heap[t].open[0]].UpVal?
          && heap[heap[t].open[0]].cell.Open?
            && heap[heap[t].open[0]].cell.slot >= level
        invariant Inv(View()) && CloseRel(s0, View()) && FrontGrew(s0, View())
        invariant t in heap && heap[t].Thread? && heap[t] == s0.heap[t].(open := heap[t].open)
        invariant OnlyClosed(s0.heap, heap, t, level)
        decreases |heap[t].open|
      {
        ghost var s1 := View();
        HeadIs(s1, t);
        CloseHead(t);
        ClosedMore(s0.heap, s1.heap, heap, t, level);
        CloseNothing(s1);
        CloseRelTrans(s0, s1, View());
        FrontGrewTrans(s0, s1, View());
      }
      AllBelow(View(), t, level);
    }

    // --------------------------------------------------- sweeping rootgc

    /** Unlink and free a dead object. Its open upvalues, if it is a thread, are closed
        first: they may still be in use. */
    method FreeObject(ghost n: nat)
      requires Inv(View()) && gcstate.Sweep? && sweepgc < |rootgc| == n && rootgc[sweepgc] in mark
        && !NotDead(rootgc[sweepgc])
      modifies `heap, `mark, `gray, `uvhead, `rootgc, `sweepgc
      ensures Inv(View()) && SweepRel(old(View()), View()) && old(rootgc)[old(sweepgc)] !in heap
    {
      hide Inv, Placed, Safe, Calm, PhaseOk, SweepRel, CloseRel, FrontGrew;
      ghost var s0 := View();
      InvCalm(s0);
      RootInHeap(s0, sweepgc);
      CloseNothing(s0);
      var curr, i: int, len := rootgc[sweepgc], sweepgc, |rootgc|;
      if heap[curr].Thread? {
        Close(curr, 0);
      }
      i := i + (|rootgc| - len);
      ghost var s1 := View();
      FrontIndex(s0, s1, i);
      StillDead(s0, s1, curr);
      CutObject(i);
      CalmFacts(s0);
      CalmFacts(s1);
      SweepRelTrans(s0, s1, View());
    }

    /** Take a dead object out of the list and free it. */
    method CutObject(i: nat)
      requires Calm(View()) && Placed(View()) && PhaseOk(View()) && gcstate.Sweep? && sweepgc <= i < |rootgc|
        && IsDead(View(), rootgc[i]) && rootgc[i] in heap
      requires heap[rootgc[i]].Thread? ==> heap[rootgc[i]].open == []
      modifies `heap, `mark, `rootgc
      ensures Inv(View()) && SweepRel(old(View()), View()) && old(rootgc)[i] !in heap
    {
      hide Inv, Placed, Safe, Calm, PhaseOk, SweepRel;
      ghost var s1 := View();
      var curr := rootgc[i];
      ObjectFreed(s1, i);
      rootgc := CutAt(rootgc, i);
      heap, mark := heap - {curr}, mark - {curr};
      CalmFacts(View());
      SweepCut(s1, i, View());
      CalmInv(View());
    }

    /** Whiten a live object, for the next cycle, and move past it. */
    method KeepObject()
      requires Inv(View()) && gcstate.Sweep? && sweepgc < |rootgc| && rootgc[sweepgc] in heap
        && rootgc[sweepgc] in mark && NotDead(rootgc[sweepgc])
      requires heap[rootgc[sweepgc]].Thread? ==>
        forall u :: u in heap[rootgc[sweepgc]].open ==> u in mark && mark[u] == White(currentwhite)
      modifies `mark, `sweepgc
      ensures Inv(View()) && SweepRel(old(View()), View()) && sweepgc == old(sweepgc) + 1
    {
      hide Inv, SweepRel;
      KeepObjectInv(View());
      mark := mark[rootgc[sweepgc] := White(currentwhite)];
      sweepgc := sweepgc + 1;
    }

    method SweepOne()
      requires Inv(View()) && gcstate.Sweep? && sweepgc < |rootgc|
      modifies `heap, `mark, `gray, `uvhead, `rootgc, `sweepgc
      ensures Inv(View()) && SweepRel(old(View()), View()) && Progress(old(View()), View())
    {
      hide Inv, Placed, Safe, Calm, PhaseOk, SweepRel, Garbage;
      ghost var s0 := View();
      InvCalm(s0);
      CalmFacts(s0);
      RootInHeap(s0, sweepgc);
      var curr := rootgc[sweepgc];
      if heap[curr].Thread? {
        SweepOpen(curr);
        StillSweeping(s0, View());
      }
      ghost var s1 := View();
      CalmFacts(s1);
      if NotDead(curr) {
        KeepObject();
      } else {
        FreeObject(|rootgc|);
        CurrWasDead(s0, s1, curr);
      }
      SweepRelTrans(s0, s1, View());
      GarbageShrinks(s0, View());
    }

    /** Sweep at most count objects. */
    method SweepRoot(count: nat)
      requires Inv(View()) && gcstate.Sweep? && count > 0
      modifies `heap, `mark, `gray, `uvhead, `rootgc, `sweepgc
      ensures Inv(View()) && SweepRel(old(View()), View())
      ensures sweepgc == |rootgc| || Smaller(View(), old(View()))
    {
      hide Inv, SweepRel, Placed, Garbage;
      ghost var s0 := View();
      InvCalm(s0);
      CalmFacts(s0);
      SweepBounds(s0);
      var n := count;
      while sweepgc < |rootgc| && n > 0
        invariant Inv(View()) && SweepRel(s0, View()) && sweepgc <= |rootgc|
        invariant (n == count && View() == s0) || Smaller(View(), s0)
        decreases n
      {
        ghost var s1 := View();
        SweepOne();
        InvCalm(s1);
        CalmFacts(s1);
        SweepRelTrans(s0, s1, View());
        SweepBounds(View());
        n := n - 1;
      }
      SweepBounds(View());
    }

    // -------------------------------------------------------- the driver

    method MarkDirect(ghost s: set<Ref>)
      requires Marking({}, s) && mainthread in heap && heap[mainthread].Thread? && mainthread in s && registry in s
      requires forall v :: v in types && v.Obj? ==> v.r in s
      modifies `mark, `gray
      ensures Marking({}, s) && MarkRound(heap, old(mark), mark, s) && NonWhite(mark, mainthread)
        && NonWhite(mark, registry)
    {
      hide TriColor, MarkRound, UpvalsBelowTop, IsClosed, GrayGrows;
      ghost var m0 := mark;
      MarkValue(Obj(mainthread), {}, s);
      ghost var m1 := mark;
      KeptInClosed(heap, s, mainthread);
      MarkValue(heap[mainthread].gt, {}, s);
      MarkRoundTrans(heap, m0, m1, mark, s);
      Darkens(heap, m1, mark, s);
      m1 := mark;
      MarkValue(Obj(registry), {}, s);
      MarkRoundTrans(heap, m0, m1, mark, s);
      Darkens(heap, m1, mark, s);
      m1 := mark;
      MarkTypes(s);
      MarkRoundTrans(heap, m0, m1, mark, s);
      Darkens(heap, m1, mark, s);
    }

    /** Start a new cycle: mark what is reachable directly. */
    method MarkRoot(ghost s: set<Ref>)
      requires Inv(View()) && (gcstate.Pause? || gcstate.Finalize?)
      requires IsClosed(heap, false, s) && Roots(View()) <= s
      modifies `mark, `gray, `grayagain, `weak, `gcstate
      ensures Inv(View()) && gcstate.Propagate? && weak == [] && (forall r :: NonWhite(mark, r) ==> r in s)
    {
      hide Inv, TriColor, MarkRound, UpvalsBelowTop, IsClosed, Roots, Keeps, Placed, NonWhite, Safe, Marking;
      ghost var s0 := View();
      MarkFirst(s);
      gcstate := Propagate;
      CycleStarted(s0, View(), s);
    }

    /** With all lists empty, mark what the roots lead to directly. */
    method MarkFirst(ghost s: set<Ref>)
      requires Inv(View()) && (gcstate.Pause? || gcstate.Finalize?)
      requires IsClosed(heap, false, s) && Roots(View()) <= s
      modifies `mark, `gray, `grayagain, `weak
      ensures grayagain == [] && weak == [] && MarkRound(heap, old(mark), mark, s)
      ensures TriColor(heap, mark, gray, [], [], {}) && NonWhite(mark, mainthread) && NonWhite(mark, registry)
    {
      hide Inv, TriColor, MarkRound, UpvalsBelowTop, IsClosed, Roots, Keeps, Placed;
      CycleRoots(View(), s);
      gray, grayagain, weak := [], [], [];
      MarkDirect(s);
    }

    /** One step of the collector. s bounds what this cycle may find alive; the set of all
        objects will always do. */
    method SingleStep(ghost s: set<Ref>)
      requires Inv(View())
      requires gcstate.Pause? || gcstate.Propagate? ==> IsClosed(heap, false, s) && Roots(View()) <= s
      requires gcstate.Propagate? ==> forall r :: NonWhite(mark, r) ==> r in s
      modifies `heap, `mark, `currentwhite, `gcstate, `rootgc, `strt, `sweepstrgc, `sweepgc, `gray, `grayagain, `weak,
        `uvhead
      ensures Inv(View()) && Stepped(old(View()), View(), s)
    {
      hide Inv, SweepRel, Advance, TriColor, IsClosed, Placed, Safe, UpvalsBelowTop, Garbage, Reach, ScannedHeap,
        ClearedHeap, StringsMarked, WeakDone, ThreadDone, IsWeak;
      match gcstate
      case Pause =>
        MarkRoot(s);
      case Propagate =>
        StepPropagate(s);
      case SweepString =>
        StepStrings(s);
      case Sweep =>
        StepSweep(s);
      case Finalize =>
        QuietInv(View());
        gcstate := Pause;
    }

    /** A step of marking: one gray object, or the atomic step when there is none. */
    method StepPropagate(ghost s: set<Ref>)
      requires Inv(View()) && gcstate.Propagate? && IsClosed(heap, false, s) && Roots(View()) <= s
        && forall r :: NonWhite(mark, r) ==> r in s
      modifies `heap, `mark, `currentwhite, `gcstate, `rootgc, `strt, `sweepstrgc, `sweepgc, `gray, `grayagain, `weak,
        `uvhead
      ensures Inv(View()) && Stepped(old(View()), View(), s)
    {
      hide Inv, SweepRel, Advance, TriColor, IsClosed, Placed, Safe, UpvalsBelowTop, Garbage, Reach, ScannedHeap,
        ClearedHeap, StringsMarked, WeakDone, ThreadDone, IsWeak;
      ghost var s0 := View();
      InvCalm(s0);
      CalmFacts(s0);
      if gray != [] {
        StepGray(s);
      } else {
        ghost var hm, mm := Atomic(s);
        assert AtomicDone(s0, hm, mm, View(), s);
      }
    }

    method StepGray(ghost s: set<Ref>)
      requires Inv(View()) && gcstate.Propagate? && gray != [] && IsClosed(heap, false, s) && Roots(View()) <= s
        && forall r :: NonWhite(mark, r) ==> r in s
      modifies `heap, `mark, `currentwhite, `gcstate, `rootgc, `strt, `sweepstrgc, `sweepgc, `gray, `grayagain, `weak,
        `uvhead
      ensures Inv(View()) && Stepped(old(View()), View(), s)
    {
      hide Inv, SweepRel, Advance, TriColor, IsClosed, Placed, Safe, UpvalsBelowTop, Garbage, Reach, ScannedHeap,
        ClearedHeap, StringsMarked, WeakDone, ThreadDone, IsWeak, AtomicDone;
      ghost var s0 := View();
      InvCalm(s0);
      CalmFacts(s0);
      StartMark(s0);
      StartAtomic(s0);
      PropagateMark(s);
      AdvanceMarks(s0.heap, s0.mark, heap, mark);
      MarkStepInv(s0, View());
    }

    /** One chain of the string table. */
    method StepStrings(ghost s: set<Ref>)
      requires Inv(View()) && gcstate.SweepString?
      modifies `heap, `mark, `currentwhite, `gcstate, `rootgc, `strt, `sweepstrgc, `sweepgc, `gray, `grayagain, `weak,
        `uvhead
      ensures Inv(View()) && Stepped(old(View()), View(), s)
    {
      hide Inv, SweepRel, Placed, Safe, Garbage, Reach;
      ghost var s0 := View();
      InvCalm(s0);
      CalmFacts(s0);
      StringBounds(s0);
      SweepStrings(sweepstrgc);
      StringsSwept(s0, View());
      ghost var s1 := View();
      sweepstrgc := sweepstrgc + 1;
      if sweepstrgc >= |strt| {
        gcstate := Sweep;
      }
      SweepMoved(s0, s1, View());
    }

    /** Forty objects of the list of all objects. */
    method StepSweep(ghost s: set<Ref>)
      requires Inv(View()) && gcstate.Sweep?
      modifies `heap, `mark, `currentwhite, `gcstate, `rootgc, `strt, `sweepstrgc, `sweepgc, `gray, `grayagain, `weak,
        `uvhead
      ensures Inv(View()) && Stepped(old(View()), View(), s)
    {
      hide Inv, SweepRel, Placed, Safe, Garbage, Reach;
      ghost var s0 := View();
      InvCalm(s0);
      CalmFacts(s0);
      SweepRoot(40);
      if sweepgc == |rootgc| {
        ghost var s1 := View();
        SweepDone(s1);
        gcstate := Finalize;
        SweepMoved(s0, s1, View());
      }
    }
  }

  /** The gray list grows only by objects that were white, so marking cannot go on for ever. */
  ghost predicate GrayGrows(m: Marks, g: seq<Ref>, m': Marks, g': seq<Ref>) {
    && (g' == g || Whites(m') < Whites(m)) && Whites(m') <= Whites(m)
    && forall r :: r in g' ==> r in g || r in Whites(m)
  }

  lemma GrayGrowsTrans(m: Marks, g: seq<Ref>, m': Marks, g': seq<Ref>, m'': Marks, g'': seq<Ref>)
    requires GrayGrows(m, g, m', g') && GrayGrows(m', g', m'', g'')
    ensures GrayGrows(m, g, m'', g'')
  {
  }

  lemma GrayShrinks(m: Marks, g: seq<Ref>, m': Marks, g': seq<Ref>)
    requires GrayGrows(m, g, m', g')
    ensures Whites(m') < Whites(m) || (Whites(m') == Whites(m) && g' == g)
    ensures forall r :: r in m && !m[r].White? && r !in g ==> r !in g'
  {
  }

  lemma AdvanceRefl(h: Heap, m: Marks)
    ensures Advance(h, m, h, m)
  {
  }

  lemma RoundWithin(h: Heap, m: Marks, m': Marks, s: set<Ref>)
    requires h.Keys == m.Keys && MarkRound(h, m, m', s) && (forall r :: NonWhite(m, r) ==> r in s)
    ensures (forall r :: NonWhite(m', r) ==> r in s) && Advance(h, m, h, m')
  {
  }

  lemma OpenIsGray(h: Heap, m: Marks, gray: seq<Ref>, grayagain: seq<Ref>, weak: seq<Ref>, u: Ref)
    requires TriColor(h, m, gray, grayagain, weak, {})
    ensures u in h && IsOpen(h[u]) && NonWhite(m, u) ==> m[u].Gray?
  {
  }

  lemma UpvalsRemarked(h: Heap, m: Marks, m': Marks, s: set<Ref>, uvhead: seq<Ref>)
    requires h.Keys == m.Keys && MarkRound(h, m, m', s)
    requires forall u :: u in h && IsOpen(h[u]) ==> u in uvhead
    requires forall u :: u in uvhead && u in h && IsOpen(h[u]) && NonWhite(m, u) ==>
      ValMarked(m', UpValue(h, h[u].cell))
    ensures UpvalsDone(h, m')
  {
  }

  lemma ClearNone(h: Heap, m: Marks)
    ensures ClearedHeap(h, m, h, []) && StringsMarked(h, m, m)
  {
  }

  lemma StillToClear(h0: Heap, m0: Marks, h: Heap, m: Marks, done: seq<Ref>, o: Ref)
    requires ClearedHeap(h0, m0, h, done) && StringsMarked(h0, m0, m) && o !in done && o in h0 && h0[o].Table?
    ensures h[o] == h0[o] && (ValMarked(m0, h0[o].mt) ==> ValMarked(m, h0[o].mt))
    ensures forall k :: Holds(h, o, k) ==> Holds(h0, o, k)
  {
  }

  lemma ClearMore(h0: Heap, m0: Marks, h1: Heap, m1: Marks, h2: Heap, m2: Marks, done: seq<Ref>, o: Ref)
    requires ClearedHeap(h0, m0, h1, done) && ClearedHeap(h1, m1, h2, [o]) && o !in done && o in h1
    requires h0.Keys == m0.Keys && StringsMarked(h0, m0, m1) && StringsMarked(h1, m1, m2)
    ensures ClearedHeap(h0, m0, h2, done + [o]) && StringsMarked(h0, m0, m2)
  {
    forall r | r in h0 ensures h1[r].String? == h0[r].String? {
      assert r in done ==> h0[r].Table? && h1[r].Table?;
    }
    forall v: Value ensures Doomed(h1, m1, v) == Doomed(h0, m0, v) {
    }
    assert h1[o] == h0[o];
    forall r | r in h0 && r in done + [o]
      ensures h0[r].Table? && h2[r].Table? && h2[r] == h0[r].(entries := h2[r].entries)
        && |h2[r].entries| == |h0[r].entries|
      ensures forall i :: 0 <= i < |h0[r].entries| ==> ClearedEntry(h0, m0, h0[r].entries[i], h2[r].entries[i])
    {
      if r == o {
        forall i | 0 <= i < |h0[r].entries| ensures ClearedEntry(h0, m0, h0[r].entries[i], h2[r].entries[i]) {
          assert ClearedEntry(h1, m1, h1[r].entries[i], h2[r].entries[i]);
        }
      } else {
        assert r in done && h2[r] == h1[r];
      }
    }
  }

  lemma ClearedStays(h: Heap, m: Marks, h': Heap, m': Marks, r: Ref, o: Ref)
    requires TableCleared(h, m, r) && r != o && ClearedHeap(h, m, h', [o]) && StringsMarked(h, m, m')
    ensures TableCleared(h', m', r)
  {
    assert h'[r] == h[r];
    forall i | 0 <= i < |h'[r].entries| ensures EntryMarked(m', h'[r].entries[i]) {
      assert EntryMarked(m, h[r].entries[i]);
    }
  }

  lemma StartAtomic(s: State)
    requires Inv(s) && s.phase.Propagate?
    ensures TriColor(s.heap, s.mark, s.gray, s.grayagain, s.weak, {}) && UpvalsBelowTop(s.heap)
      && s.heap.Keys == s.mark.Keys
    ensures forall u :: u in s.heap && IsOpen(s.heap[u]) ==> u in s.uvhead
  {
    ThreadsBelowTop(s.heap);
  }

  lemma UpvalsStay(h: Heap, m: Marks, h': Heap, m': Marks)
    requires h.Keys == m.Keys && UpvalsBelowTop(h) && UpvalsDone(h, m) && Advance(h, m, h', m')
    ensures UpvalsDone(h', m')
  {
    forall u | u in h' && IsOpen(h'[u]) && NonWhite(m', u) ensures ValMarked(m', UpValue(h', h'[u].cell)) {
      assert ScannedObject(h[u], h'[u]);
      ScannedUpValue(h, h', u);
      assert NonWhite(m, u) ==> ValMarked(m, UpValue(h, h[u].cell));
    }
  }

  lemma AdvanceMarks(h: Heap, m: Marks, h': Heap, m': Marks)
    requires Advance(h, m, h', m')
    ensures forall r :: NonWhite(m, r) ==> NonWhite(m', r)
  {
  }

  /** The objects of an emptied gray list and of another list trade places. */
  lemma NextList(h: Heap, m: Marks, grayagain: seq<Ref>, weak: seq<Ref>)
    requires TriColor(h, m, [], grayagain, weak, {})
    ensures TriColor(h, m, weak, grayagain, [], {})
  {
  }

  lemma NextAgain(h: Heap, m: Marks, grayagain: seq<Ref>, weak: seq<Ref>)
    requires TriColor(h, m, [], grayagain, weak, {})
    ensures TriColor(h, m, grayagain, [], weak, {})
  {
  }

  /** What holds when marking ends. */
  ghost predicate Marked(s0: State, s: State) {
    && s == s0.(heap := s.heap, mark := s.mark, gray := [], grayagain := s.grayagain, weak := s.weak)
    && Placed(s) && ScannedHeap(s0.heap, s.heap) && AllDone(s.heap, s.mark, s.grayagain, s.weak)
    && (forall r :: r in s.mark ==> s.mark[r] != White(!s.cw))
    && (forall r :: r in Roots(s) ==> NonWhite(s.mark, r))
    && (forall o, k :: o in s.weak && o in s.heap && Holds(s.heap, o, k) ==> k in s.heap)
  }

  lemma MarkedFlip(s0: State, s: State, h': Heap, m': Marks)
    requires Marked(s0, s) && ClearedHeap(s.heap, s.mark, h', s.weak) && StringsMarked(s.heap, s.mark, m')
      && forall o :: o in s.weak ==> TableCleared(h', m', o)
    ensures Inv(Flipped(s, h', m'))
  {
    hide Placed, AllDone, ClearedHeap, StringsMarked, TableCleared, Inv, Roots;
    FlipIsSafe(s, h', m');
  }

  lemma WhatIsMarked(s0: State, s: State)
    requires Marked(s0, s)
    ensures s.heap.Keys == s.mark.Keys && NoDup(s.weak) && NoOtherWhite(s)
    ensures (forall o :: o in s.heap ==> !IsWeak(s.heap, o)) ==> s.weak == []
    ensures forall o :: o in s.weak ==> IsWeak(s.heap, o)
    ensures forall o :: o in s.weak ==> o in s.heap && s.heap[o].Table? && ValMarked(s.mark, s.heap[o].mt)
    ensures forall o, k :: o in s.weak && Holds(s.heap, o, k) ==> k in s.heap
  {
    assert forall o :: o in s.weak ==> WeakDone(s.heap, s.mark, o);
    assert s.weak != [] ==> s.weak[0] in s.weak;
  }

  /** What the sweep that follows the mark phase keeps. */
  ghost function Kept(s: State): set<Ref> { set r | r in s.heap && (NonWhite(s.mark, r) || r in s.fixed) }

  lemma ClearedKeys(h: Heap, m: Marks, h': Heap, weak: seq<Ref>)
    requires ClearedHeap(h, m, h', weak)
    ensures h'.Keys == h.Keys
  {
  }

  lemma FlipLive(s: State, s': State)
    requires NoOtherWhite(s) && s.heap.Keys == s.mark.Keys && StringsMarked(s.heap, s.mark, s'.mark)
      && s'.heap.Keys == s.heap.Keys
    requires s'.cw == !s.cw && s'.fixed == s.fixed
    ensures LiveSet(s') == Kept(s')
  {
  }

  lemma EndMarking(s0: State, s: State)
    requires Inv(s0) && s0.phase.Propagate? && Advance(s0.heap, s0.mark, s.heap, s.mark)
    requires s == s0.(heap := s.heap, mark := s.mark, gray := [], grayagain := s.grayagain, weak := s.weak)
    requires TriColor(s.heap, s.mark, [], s.grayagain, s.weak, {}) && UpvalsDone(s.heap, s.mark)
    requires forall r :: r in s.weak ==> WeakDone(s.heap, s.mark, r)
    requires forall r :: r in s.grayagain ==> ThreadDone(s.heap, s.mark, r)
    requires NonWhite(s.mark, s.running) && forall v :: v in s.types ==> ValMarked(s.mark, v)
    ensures Marked(s0, s)
  {
    hide TriColor, TableDone, WeakDone, ThreadDone, UpvalsDone, Holds, Placed, Safe, ScannedHeap, Threads,
      NewUpvalsScanned;
    ScannedPlaced(s0, s);
    InvCalm(s0);
    forall o, k | o in s.weak && o in s.heap && Holds(s.heap, o, k) ensures k in s.heap {
      WeakHolds(s0, s, o, k);
    }
    EndMarks(s0, s);
    EndDone(s);
  }

  /** A weak table still refers only to what is allocated. */
  lemma WeakHolds(s0: State, s: State, o: Ref, k: Ref)
    requires Placed(s0) && Safe(s0) && NoOtherWhite(s0) && ScannedHeap(s0.heap, s.heap) && o in s.heap
      && Holds(s.heap, o, k)
    ensures k in s.heap
  {
    hide Holds, StringLists;
    ThreadsBelowTop(s0.heap);
    ScannedEdges(s0.heap, s.heap, o, k);
    assert o in LiveSet(s0) && Edge(s0.heap, true, o, k);
  }

  lemma EndMarks(s0: State, s: State)
    requires PhaseOk(s0) && s0.phase.Propagate? && Advance(s0.heap, s0.mark, s.heap, s.mark) && s.cw == s0.cw
    requires s.main == s0.main && s.registry == s0.registry && NonWhite(s.mark, s.running)
      && forall v :: v in s.types ==> ValMarked(s.mark, v)
    ensures (forall r :: r in s.mark ==> s.mark[r] != White(!s.cw))
      && (forall r :: r in Roots(s) ==> NonWhite(s.mark, r))
  {
    hide TriColor, ScannedHeap, NewUpvalsScanned;
  }

  lemma EndDone(s: State)
    requires TriColor(s.heap, s.mark, [], s.grayagain, s.weak, {}) && UpvalsDone(s.heap, s.mark)
    requires (forall r :: r in s.weak ==> WeakDone(s.heap, s.mark, r))
      && (forall r :: r in s.grayagain ==> ThreadDone(s.heap, s.mark, r))
    ensures AllDone(s.heap, s.mark, s.grayagain, s.weak)
  {
    hide TriColor, UpvalsDone, WeakDone, ThreadDone;
  }

  /** The first i objects of a list have been swept. */
  ghost predicate WhiteUpTo(m: Marks, w: bool, l: seq<Ref>, i: nat) {
    i <= |l| && forall j :: 0 <= j < i ==> l[j] in m && m[l[j]] == White(w)
  }

  lemma WhiteNone(m: Marks, w: bool, l: seq<Ref>)
    ensures WhiteUpTo(m, w, l, 0)
  {
  }

  lemma WhiteAll(m: Marks, w: bool, l: seq<Ref>)
    requires WhiteUpTo(m, w, l, |l|)
    ensures forall r :: r in l ==> r in m && m[r] == White(w)
  {
  }

  lemma WhiteStep(m: Marks, w: bool, l: seq<Ref>, i: nat)
    requires WhiteUpTo(m, w, l, i) && i < |l|
    requires forall j :: 0 <= j < |l| && j != i ==> l[j] != l[i]
    ensures WhiteUpTo(m[l[i] := White(w)], w, l, i + 1)
    ensures WhiteUpTo(m - {l[i]}, w, CutAt(l, i), i) && |CutAt(l, i)| == |l| - 1
  {
  }

  /** Some objects were put in front of rootgc; the sweep position moved along. */
  ghost predicate FrontGrew(s: State, s': State) {
    |s'.rootgc| >= |s.rootgc| && var k := |s'.rootgc| - |s.rootgc|;
      s'.rootgc[k..] == s.rootgc && s'.sweepAt == (if s.sweepAt == 0 then 0 else s.sweepAt + k)
        && s'.sweepStr == s.sweepStr
      && s'.grayagain == s.grayagain && s'.weak == s.weak
  }

  lemma FrontGrewTrans(s: State, s': State, s'': State)
    requires FrontGrew(s, s') && FrontGrew(s', s'')
    ensures FrontGrew(s, s'')
  {
    var k, k' := |s'.rootgc| - |s.rootgc|, |s''.rootgc| - |s'.rootgc|;
    assert s''.rootgc[k + k'..] == s''.rootgc[k'..][k..];
  }

  /** The first open upvalue of t has been closed, or is gone. */
  ghost predicate HeadGone(h: Heap, h': Heap, t: Ref) {
    && t in h && h[t].Thread? && h[t].open != [] && h[t].open[0] in h && IsOpen(h[h[t].open[0]])
    && var u, th := h[t].open[0], h[t].(open := h[t].open[1..]);
       h' == h[t := th][u := UpVal(Closed(UpValue(h, h[u].cell)))] || h' == h[t := th] - {u}
  }

  ghost predicate ReadsFrom(o: Object, t: Ref, level: nat) { IsOpen(o) && o.cell.th == t && o.cell.slot >= level }

  /** h is h0 with some of the upvalues for slots of t from level on closed, or gone. */
  ghost predicate OnlyClosed(h0: Heap, h: Heap, t: Ref, level: nat) {
    && t in h0 && t in h && h0[t].Thread? && h[t].Thread? && h[t] == h0[t].(open := h[t].open)
    && (forall r :: r in h && r != t ==>
          && r in h0
          && (h[r] == h0[r] || (ReadsFrom(h0[r], t, level) && h[r] == UpVal(Closed(UpValue(h0, h0[r].cell))))))
    && (forall r :: r in h0 ==> r in h || ReadsFrom(h0[r], t, level))
  }

  lemma HeadIs(s: State, t: Ref)
    requires Inv(s) && t in s.heap && s.heap[t].Thread? && s.heap[t].open != []
    ensures var u := s.heap[t].open[0]; u in s.heap && IsOpen(s.heap[u]) && s.heap[u].cell.th == t && u != t
  {
    hide Safe, PhaseOk, StringLists;
    assert ThreadOk(s.heap, t);
  }

  lemma ClosedNone(h: Heap, t: Ref, level: nat)
    requires t in h && h[t].Thread?
    ensures OnlyClosed(h, h, t, level)
  {
  }

  lemma ClosedMore(h0: Heap, h: Heap, h': Heap, t: Ref, level: nat)
    requires OnlyClosed(h0, h, t, level) && HeadGone(h, h', t) && ReadsFrom(h[h[t].open[0]], t, level)
      && h[t].open[0] != t
    ensures OnlyClosed(h0, h', t, level)
  {
  }

  lemma CloseNothing(s: State)
    requires Inv(s)
    ensures CloseRel(s, s) && FrontGrew(s, s) && Threads(s.heap)
  {
    SweepRelRefl(s);
  }

  lemma AllBelow(s: State, t: Ref, level: nat)
    requires Inv(s) && t in s.heap && s.heap[t].Thread?
    requires s.heap[t].open == [] || !(s.heap[t].open[0] in s.heap && IsOpen(s.heap[s.heap[t].open[0]])
      && s.heap[s.heap[t].open[0]].cell.slot >= level)
    ensures forall u :: u in s.heap[t].open ==> u in s.heap && IsOpen(s.heap[u]) && s.heap[u].cell.slot < level
    ensures level == 0 ==> s.heap[t].open == []
  {
    assert ThreadOk(s.heap, t);
    assert s.heap[t].open != [] ==> s.heap[t].open[0] in s.heap[t].open;
    forall u | u in s.heap[t].open ensures s.heap[u].cell.slot < level {
      var i :| 0 <= i < |s.heap[t].open| && s.heap[t].open[i] == u;
      assert i > 0 ==> s.heap[s.heap[t].open[i]].cell.slot < s.heap[s.heap[t].open[0]].cell.slot;
    }
  }

  lemma CutHead(l: seq<Ref>)
    requires l != []
    ensures CutAt(l, 0) == l[1..]
  {
  }

  lemma DeadInSweep(s: State, u: Ref)
    requires Inv(s) && IsDead(s, u)
    ensures !s.phase.Propagate?
  {
  }

  lemma CalmInv(s: State)
    requires Calm(s) && PhaseOk(s)
    ensures Inv(s)
  {
  }

  lemma StartMark(s: State)
    requires Inv(s) && s.phase.Propagate?
    ensures TriColor(s.heap, s.mark, s.gray, s.grayagain, s.weak, {}) && NoOtherWhite(s)
    ensures NonWhite(s.mark, s.main) && NonWhite(s.mark, s.registry) && s.heap.Keys == s.mark.Keys
  {
  }

  lemma CalmMark(s: State)
    requires Calm(s) && NoOtherWhite(s)
    ensures UpvalsBelowTop(s.heap) && IsClosed(s.heap, false, s.heap.Keys) && s.heap.Keys == s.mark.Keys && Placed(s)
      && Safe(s)
  {
    ThreadsBelowTop(s.heap);
    HeapIsClosed(s);
  }

  lemma ClosedValue(s: State, u: Ref, v: Value)
    requires Calm(s) && NoOtherWhite(s) && u in s.heap && s.heap[u] == UpVal(Closed(v))
    ensures v.Obj? ==> v.r in s.heap
  {
    HeapIsClosed(s);
    assert v.Obj? ==> Edge(s.heap, false, u, v.r);
  }

  lemma BlackenedAdvance(s: State, u: Ref, m1: Marks, m: Marks, a: set<Ref>)
    requires s.heap.Keys == s.mark.Keys && NonWhite(s.mark, u) && m1 == s.mark[u := Black]
      && MarkRound(s.heap, m1, m, a)
    ensures Advance(s.heap, s.mark, s.heap, m) && forall r :: NonWhite(s.mark, r) ==> NonWhite(m, r)
  {
  }

  lemma BlackenStart(s0: State, t: Ref, u: Ref, s1: State)
    requires Inv(s0) && s0.phase.Propagate? && t in s0.heap && s0.heap[t].Thread? && s0.heap[t].open != []
    requires u == s0.heap[t].open[0] && u in s0.heap && IsOpen(s0.heap[u]) && u in s0.mark && s0.mark[u].Gray?
    requires s1 == UpvalClosed(s0, t) && Calm(s1)
    ensures s1.heap.Keys == s1.mark.Keys == s1.mark[u := Black].Keys && u in s1.heap && s1.heap[u].UpVal?
      && s1.heap[u].cell.Closed?
    ensures TriColor(s1.heap, s1.mark[u := Black], s1.gray, s1.grayagain, s1.weak, {u})
    ensures UpvalsBelowTop(s1.heap) && IsClosed(s1.heap, false, s1.heap.Keys)
    ensures s1.heap[u].cell.v.Obj? ==> s1.heap[u].cell.v.r in s1.heap
    ensures Placed(s1) && Safe(s1) && NoOtherWhite(s1) && NonWhite(s1.mark, s1.main) && NonWhite(s1.mark, s1.registry)
  {
    hide TriColor, UpvalsBelowTop, IsClosed, Placed, Safe, Calm, Inv;
    StartMark(s0);
    CalmMark(s1);
    ClosedGrayTri(s0, t, u, s1);
    ClosedValue(s1, u, s1.heap[u].cell.v);
  }

  lemma BlackenedInv(s1: State, s2: State, u: Ref)
    requires Placed(s1) && Safe(s1) && NoOtherWhite(s1) && NonWhite(s1.mark, u) && u in s1.heap && s1.heap[u].UpVal?
      && s1.heap[u].cell.Closed?
    requires s2 == s1.(mark := s2.mark, gray := s2.gray) && s1.phase.Propagate?
    requires MarkRound(s1.heap, s1.mark[u := Black], s2.mark, s1.heap.Keys)
      && GrayGrows(s1.mark[u := Black], s1.gray, s2.mark, s2.gray)
    requires TriColor(s2.heap, s2.mark, s2.gray, s2.grayagain, s2.weak, {u}) && ValMarked(s2.mark, s1.heap[u].cell.v)
    requires NonWhite(s1.mark, s1.main) && NonWhite(s1.mark, s1.registry)
    ensures Inv(s2) && NoOtherWhite(s2) && s2.mark.Keys == s1.mark.Keys
  {
    hide TriColor, MarkRound, Placed, Safe, GrayGrows, Inv, Advance;
    var m1 := s1.mark[u := Black];
    assert {} + {u} == {u};
    PlacedKeys(s1);
    Darkens(s1.heap, m1, s2.mark, s1.heap.Keys);
    GrayShrinks(m1, s1.gray, s2.mark, s2.gray);
    Settle(s2.heap, s2.mark, s2.gray, s2.grayagain, s2.weak, {}, u);
    BlackenedAdvance(s1, u, m1, s2.mark, s1.heap.Keys);
    MarkStepInv(s1, s2);
  }

  lemma CloseDarker(s0: State, s1: State, s2: State)
    requires CloseRel(s0, s1) && s2 == s1.(mark := s2.mark, gray := s2.gray) && s2.mark.Keys == s1.mark.Keys
      && NoOtherWhite(s2) && s0.phase.Propagate?
    ensures CloseRel(s0, s2)
  {
  }

  lemma WhiteClosed(s: State, t: Ref)
    requires Inv(s) && t in s.heap && s.heap[t].Thread? && s.heap[t].open != []
    requires var u := s.heap[t].open[0];
      u in s.heap && IsOpen(s.heap[u]) && u in s.mark && !s.mark[u].Gray? && !IsDead(s, u)
    requires Calm(UpvalClosed(s, t)) && SweepRel(s, UpvalClosed(s, t))
    ensures Inv(UpvalClosed(s, t))
  {
    var u := s.heap[t].open[0];
    UpvalIsGray(s, u);
    if s.phase.Propagate? {
      ClosedWhiteTri(s, t, u, UpvalClosed(s, t));
    } else {
      ClosedPhase(s, t, UpvalClosed(s, t));
    }
  }

  /** Sweeping comes to an end: it uses up the garbage or the list. */
  ghost predicate Progress(s: State, s': State) {
    Garbage(s') < Garbage(s) || (Garbage(s') <= Garbage(s) && s'.rootgc == s.rootgc && s'.sweepAt == s.sweepAt + 1)
  }

  lemma RootInHeap(s: State, i: nat)
    requires Inv(s) && i < |s.rootgc|
    ensures s.rootgc[i] in s.heap && s.rootgc[i] in s.mark && !IsOpen(s.heap[s.rootgc[i]])
      && !s.heap[s.rootgc[i]].String?
  {
    assert s.rootgc[i] in s.rootgc;
  }

  lemma FrontIndex(s: State, s': State, i: int)
    requires FrontGrew(s, s') && s.sweepAt < |s.rootgc| && i == s.sweepAt + (|s'.rootgc| - |s.rootgc|)
    ensures s'.sweepAt <= i < |s'.rootgc| && s'.rootgc[i] == s.rootgc[s.sweepAt]
  {
    var k := |s'.rootgc| - |s.rootgc|;
    assert s'.rootgc[k..][s.sweepAt] == s'.rootgc[k + s.sweepAt];
  }

  lemma StillDead(s: State, s': State, r: Ref)
    requires CloseRel(s, s') && s.phase.Sweep? && IsDead(s, r) && Inv(s') && r in s'.heap
    ensures IsDead(s', r) && SweepRel(s, s') && Calm(s') && PhaseOk(s') && Placed(s')
  {
  }

  lemma StillSweeping(s: State, s': State)
    requires Inv(s) && s.phase.Sweep? && Calm(s') && SweepRel(s, s')
      && s' == s.(heap := s'.heap, mark := s'.mark, uvhead := s'.uvhead)
    ensures Inv(s')
  {
    assert s'.rootgc[0..] == s.rootgc;
    PhaseStays(s, s', 0);
  }

  lemma PastFacts(s: State)
    requires Inv(s)
    ensures Placed(s) && PhaseOk(s)
  {
  }

  lemma SweepMoved(s: State, s1: State, s2: State)
    requires SweepRel(s, s1) && s2 == s1.(sweepAt := s2.sweepAt, sweepStr := s2.sweepStr, phase := s2.phase)
    ensures SweepRel(s, s2) && Garbage(s2) == Garbage(s1)
  {
  }

  lemma CalmMoved(s1: State, s2: State)
    requires Calm(s1) && s2 == s1.(sweepAt := s2.sweepAt)
    ensures Calm(s2)
  {
    assert LiveSet(s2) == LiveSet(s1);
  }

  lemma KeepObjectInv(s: State)
    requires Inv(s) && s.phase.Sweep? && s.sweepAt < |s.rootgc| && s.rootgc[s.sweepAt] in s.heap
      && !IsDead(s, s.rootgc[s.sweepAt])
    requires s.heap[s.rootgc[s.sweepAt]].Thread? ==>
      forall u :: u in s.heap[s.rootgc[s.sweepAt]].open ==> u in s.mark && s.mark[u] == White(s.cw)
    ensures var s' := s.(mark := s.mark[s.rootgc[s.sweepAt] := White(s.cw)], sweepAt := s.sweepAt + 1);
      Inv(s') && SweepRel(s, s')
  {
    hide Inv, Placed, Safe, Calm, PhaseOk, SweepRel, BlackKinds;
    var s1 := s.(mark := s.mark[s.rootgc[s.sweepAt] := White(s.cw)]);
    var s' := s1.(sweepAt := s.sweepAt + 1);
    InvCalm(s);
    PastFacts(s);
    Whitened(s, s.rootgc[s.sweepAt]);
    CalmFacts(s1);
    SweepPast(s, s');
    SweepMoved(s, s1, s');
    CalmMoved(s1, s');
    CalmInv(s');
  }

  lemma CurrWasDead(s: State, s1: State, r: Ref)
    requires SweepRel(s, s1) && r in s1.heap && IsDead(s1, r)
    ensures r in Garbage(s)
  {
  }

  ghost predicate Smaller(s: State, s': State) {
    Garbage(s) < Garbage(s') || (Garbage(s) <= Garbage(s') && s.rootgc == s'.rootgc && s.sweepAt > s'.sweepAt)
  }

  lemma SweepBounds(s: State)
    requires Inv(s) && s.phase.Sweep?
    ensures s.sweepAt <= |s.rootgc|
  {
  }

  lemma StringBounds(s: State)
    requires Inv(s) && s.phase.SweepString?
    ensures s.sweepStr < |s.strt|
  {
  }

  lemma SweepDone(s: State)
    requires Inv(s) && s.phase.Sweep? && s.sweepAt == |s.rootgc|
    ensures Inv(s.(phase := Finalize))
  {
    SweepEnds(s);
    PlacedFields(s, s.(phase := Finalize));
    SafeFields(s, s.(phase := Finalize));
  }

  lemma QuietInv(s: State)
    requires Inv(s) && s.phase.Finalize?
    ensures Inv(s.(phase := Pause))
  {
    PlacedFields(s, s.(phase := Pause));
    SafeFields(s, s.(phase := Pause));
  }

  lemma CycleRoots(s: State, a: set<Ref>)
    requires Inv(s) && (s.phase.Pause? || s.phase.Finalize?) && Roots(s) <= a
    ensures TriColor(s.heap, s.mark, [], [], [], {}) && UpvalsBelowTop(s.heap) && s.heap.Keys == s.mark.Keys
    ensures s.main in s.heap && s.heap[s.main].Thread? && s.main in a && s.registry in a
      && (forall v :: v in s.types && v.Obj? ==> v.r in a)
  {
    ThreadsBelowTop(s.heap);
  }

  lemma StartCycle(s: State, a: set<Ref>)
    requires Inv(s) && (s.phase.Pause? || s.phase.Finalize?) && IsClosed(s.heap, false, a) && Roots(s) <= a
    ensures s.heap.Keys == s.mark.Keys
    ensures NoOtherWhite(s.(gray := [], grayagain := [], weak := [])) && (forall r :: NonWhite(s.mark, r) ==> r in a)
    ensures Placed(s.(gray := [], grayagain := [], weak := [])) && Safe(s.(gray := [], grayagain := [], weak := []))
  {
    PlacedFields(s, s.(gray := [], grayagain := [], weak := []));
    SafeFields(s, s.(gray := [], grayagain := [], weak := []));
  }

  lemma CycleStarted(s: State, s': State, a: set<Ref>)
    requires Inv(s) && (s.phase.Pause? || s.phase.Finalize?) && IsClosed(s.heap, false, a) && Roots(s) <= a
    requires s' == s.(mark := s'.mark, gray := s'.gray, grayagain := [], weak := [], phase := Propagate)
    requires MarkRound(s.heap, s.mark, s'.mark, a) && TriColor(s'.heap, s'.mark, s'.gray, [], [], {})
    requires NonWhite(s'.mark, s.main) && NonWhite(s'.mark, s.registry)
    ensures Inv(s') && (forall r :: NonWhite(s'.mark, r) ==> r in a)
  {
    hide Inv, TriColor, MarkRound, UpvalsBelowTop, IsClosed, Advance, Safe, Placed, NoOtherWhite, Roots;
    StartCycle(s, a);
    RoundWithin(s.heap, s.mark, s'.mark, a);
    MarkStepInv(s.(gray := [], grayagain := [], weak := []), s');
  }

  /** What one step of the collector does, phase by phase. */
  ghost predicate Stepped(s: State, s': State, a: set<Ref>) {
    match s.phase
    case Pause => s'.phase.Propagate? && s'.heap == s.heap && s'.weak == []
      && (forall r :: NonWhite(s'.mark, r) ==> r in a)
    case Propagate =>
      if s.gray != [] then
        && s'.phase.Propagate? && Advance(s.heap, s.mark, s'.heap, s'.mark)
        && (forall r :: NonWhite(s'.mark, r) ==> r in a)
        && (Whites(s'.mark) < Whites(s.mark) || (Whites(s'.mark) == Whites(s.mark) && |s'.gray| < |s.gray|))
        && Roots(s') == Roots(s) && s'.fixed == s.fixed
      else
        && s'.phase.SweepString? && Roots(s') == Roots(s) && s'.fixed == s.fixed
        && exists hm, mm :: AtomicDone(s, hm, mm, s', a)
    case SweepString =>
      && SweepRel(s, s') && (s'.phase.Sweep? || (s'.phase.SweepString? && s'.sweepStr == s.sweepStr + 1
      && |s'.strt| == |s.strt|))
    case Sweep =>
      && SweepRel(s, s') && (s'.phase.Finalize? || (s'.phase.Sweep? && Smaller(s', s)))
    case Finalize => s' == s.(phase := Pause)
  }

  ghost predicate AtomicDone(s: State, hm: Heap, mm: Marks, s': State, a: set<Ref>) {
    && ScannedHeap(s.heap, hm) && ClearedHeap(hm, mm, s'.heap, s'.weak) && StringsMarked(hm, mm, s'.mark)
    && (forall r :: Reach(hm, false, Roots(s'), r) ==> NonWhite(mm, r)) && (forall r :: NonWhite(mm, r) ==> r in a)
    && ((forall o :: o in hm ==> !IsWeak(hm, o)) ==> s'.mark == mm)
    && (forall o :: o in s'.weak ==> IsWeak(hm, o)) && LiveSet(s') == Kept(s')
  }

  /** The state that a new universe begins with: a thread, its globals and the registry. */
  predicate IsFresh(s: State, globals: Ref) {
    && s.main != globals && s.main != s.registry && globals != s.registry && s.running == s.main
    && (forall v :: v in s.types ==> v.Nil?) && s.fixed == {}
    && s.heap.Keys == {s.main, globals, s.registry} == s.mark.Keys && s.phase.Pause?
    && s.heap[s.main].Thread? && s.heap[s.main].gt == Obj(globals) && s.heap[s.main].top == 0
    && s.heap[s.main].open == []
    && (forall i :: 0 <= i < |s.heap[s.main].stack| ==> s.heap[s.main].stack[i].Nil?)
    && s.heap[globals] == s.heap[s.registry] == Table(Nil, false, false, [])
    && s.rootgc == [s.registry, globals, s.main] && s.uvhead == [] && s.strt != []
    && (forall b :: 0 <= b < |s.strt| ==> s.strt[b] == [])
  }

  lemma FreshInv(s: State, globals: Ref)
    requires IsFresh(s, globals) && AllWhite(s)
    ensures Inv(s)
  {
    hide Placed, Safe, IsFresh;
    FreshPlaced(s, globals);
    FreshSafe(s, globals);
    assert s.phase.Pause? by { FreshPause(s, globals); }
  }

  lemma FreshPause(s: State, globals: Ref)
    requires IsFresh(s, globals)
    ensures s.phase.Pause?
  {
  }

  lemma FreshPlaced(s: State, globals: Ref)
    requires IsFresh(s, globals)
    ensures Placed(s)
  {
    assert forall r :: r in s.rootgc <==> r == s.registry || r == globals || r == s.main;
    assert Threads(s.heap) by { assert ThreadOk(s.heap, s.main); }
  }

  lemma FreshSafe(s: State, globals: Ref)
    requires IsFresh(s, globals) && AllWhite(s)
    ensures Safe(s)
  {
    assert LiveSet(s) == s.heap.Keys;
  }

  lemma CalmFacts(s: State)
    requires Calm(s)
    ensures Placed(s) && Threads(s.heap) && s.heap.Keys == s.mark.Keys && SweepRel(s, s) && BlackKinds(s)
  {
    hide SweepRel;
    SweepRelRefl(s);
  }

  /** h' is h without some of the open upvalues of t. */
  ghost predicate OnlyUnlinked(h: Heap, h': Heap, t: Ref) {
    && h'.Keys <= h.Keys && t in h' && h[t].Thread? && h'[t].Thread? && h'[t] == h[t].(open := h'[t].open)
    && (forall r :: r in h' && r != t ==> h'[r] == h[r])
    && (forall r :: r in h && r !in h' ==> IsOpen(h[r]))
    && (forall u :: u in h'[t].open ==> u in h[t].open)
  }

  lemma Unlinked(s: State, t: Ref)
    requires t in s.heap && s.heap[t].Thread?
    ensures OnlyUnlinked(s.heap, s.heap, t)
  {
  }

  lemma UnlinkedMore(h: Heap, s: State, t: Ref, i: nat)
    requires t in s.heap && s.heap[t].Thread? && i < |s.heap[t].open| && Threads(s.heap) && OnlyUnlinked(h, s.heap, t)
    ensures OnlyUnlinked(h, UpvalFreed(s, t, i).heap, t)
  {
    OpenInHeap(s.heap, t, s.heap[t].open[i]);
  }

  lemma StringInHeap(s: State, b: nat, i: nat)
    requires Calm(s) && b < |s.strt| && i < |s.strt[b]|
    ensures s.strt[b][i] in s.heap && s.heap[s.strt[b][i]].String? && s.strt[b][i] in s.mark
  {
    assert InStrings(s.strt, s.strt[b][i]);
  }

  lemma BucketsApart(s: State, b: nat, i: nat)
    requires Calm(s) && b < |s.strt| && i < |s.strt[b]|
    ensures forall j :: 0 <= j < |s.strt[b]| && j != i ==> s.strt[b][j] != s.strt[b][i]
  {
  }

  lemma OpenApart(s: State, t: Ref, i: nat)
    requires Calm(s) && t in s.heap && s.heap[t].Thread? && i < |s.heap[t].open|
    ensures forall j :: 0 <= j < |s.heap[t].open| && j != i ==> s.heap[t].open[j] != s.heap[t].open[i]
    ensures s.heap[t].open[i] != t && s.heap[t].open[i] in s.heap && s.heap[t].open[i] in s.mark
  {
    OpenNoDup(s.heap, t);
    OpenInHeap(s.heap, t, s.heap[t].open[i]);
  }

  lemma GrayGrowsNot(m: Marks, g: seq<Ref>)
    ensures GrayGrows(m, g, m, g)
  {
  }

  lemma GrayGrowsOne(m: Marks, g: seq<Ref>, o: Ref, c: Color)
    requires o in m && m[o].White? && !c.White?
    ensures GrayGrows(m, g, m[o := c], g) && GrayGrows(m, g, m[o := c], [o] + g)
  {
    assert o in Whites(m) && o !in Whites(m[o := c]);
  }

  lemma GrayGrowsBlack(m: Marks, g: seq<Ref>, m': Marks, g': seq<Ref>, o: Ref)
    requires GrayGrows(m, g, m', g') && NonWhite(m', o)
    ensures GrayGrows(m, g, m'[o := Black], g')
  {
    assert Whites(m'[o := Black]) == Whites(m');
  }

  /** Colouring a white object exempts it until its references are marked. */
  lemma Paint(h: Heap, m: Marks, gray: seq<Ref>, grayagain: seq<Ref>, weak: seq<Ref>, x: set<Ref>, o: Ref, c: Color)
    requires TriColor(h, m, gray, grayagain, weak, x) && o in m && m[o].White? && !c.White?
    ensures TriColor(h, m[o := c], gray, grayagain, weak, x + {o})
  {
  }

  lemma PaintRound(h: Heap, m: Marks, o: Ref, c: Color, s: set<Ref>)
    requires h.Keys == m.Keys && o in m && m[o].White? && !c.White? && o in s && !h[o].UpVal?
    ensures MarkRound(h, m, m[o := c], s) && Whites(m[o := c]) <= Whites(m)
  {
  }

  /** The entries from i on have been scanned. */
  ghost predicate DoneFrom(m: Marks, wk: bool, wv: bool, es: seq<Entry>, i: nat) {
    forall j :: i <= j < |es| ==> EntryDone(m, wk, wv, es[j])
  }

  lemma DoneNone(m: Marks, wk: bool, wv: bool, es: seq<Entry>)
    ensures DoneFrom(m, wk, wv, es, |es|)
  {
  }

  lemma DoneMore(h: Heap, m: Marks, h': Heap, m': Marks, wk: bool, wv: bool, es: seq<Entry>, es': seq<Entry>, i: nat,
      s: set<Ref>)
    requires DoneFrom(m, wk, wv, es, i + 1) && i < |es| == |es'| && EntryDone(m', wk, wv, es'[i])
    requires forall j :: 0 <= j < |es| && j != i ==> es'[j] == es[j]
    requires Round(h, m, h', m', s)
    ensures DoneFrom(m', wk, wv, es', i)
  {
    hide MarkRound, ScannedHeap;
    Darkens(h', m, m', s);
  }

  lemma ModesStay(h: Heap, m: Marks, h': Heap, m': Marks, mt: Value, s: set<Ref>)
    requires Round(h, m, h', m', s) && ValMarked(m, mt)
    ensures WeakKeys(h', mt) == WeakKeys(h, mt) && WeakVals(h', mt) == WeakVals(h, mt) && ValMarked(m', mt)
  {
    hide MarkRound, ScannedHeap, WeakKeys, WeakVals;
    ScannedModes(h, h', mt);
    Darkens(h', m, m', s);
  }

  lemma DoneAll(h: Heap, m: Marks, o: Ref, wk: bool, wv: bool)
    requires o in h && h[o].Table? && ValMarked(m, h[o].mt) && wk == WeakKeys(h, h[o].mt) && wv == WeakVals(h, h[o].mt)
    requires DoneFrom(m, wk, wv, h[o].entries, 0)
    ensures TableDone(h, m, o)
  {
  }

  lemma Darkens(h: Heap, m: Marks, m': Marks, s: set<Ref>)
    requires MarkRound(h, m, m', s)
    ensures Whites(m') <= Whites(m) && m'.Keys == m.Keys && forall r :: NonWhite(m, r) ==> NonWhite(m', r)
    ensures forall r :: NonWhite(m, r) ==> m'[r] == m[r]
  {
  }

  lemma KeptInClosed(h: Heap, s: set<Ref>, o: Ref)
    requires IsClosed(h, false, s) && o in s
    ensures forall k :: Keeps(h, o, k) ==> k in s
  {
    forall k | Keeps(h, o, k) ensures k in s {
      assert Edge(h, false, o, k);
    }
  }

  lemma Recolor(h: Heap, m: Marks, gray: seq<Ref>, grayagain: seq<Ref>, weak: seq<Ref>, x: set<Ref>, o: Ref, c: Color)
    requires TriColor(h, m, gray, grayagain, weak, x + {o}) && NonWhite(m, o) && !c.White?
    ensures TriColor(h, m[o := c], gray, grayagain, weak, x + {o})
  {
  }

  /** An object whose colour is right for its kind and references needs no exemption. */
  lemma Settle(h: Heap, m: Marks, gray: seq<Ref>, grayagain: seq<Ref>, weak: seq<Ref>, x: set<Ref>, o: Ref)
    requires TriColor(h, m, gray, grayagain, weak, x + {o}) && NonWhite(m, o)
    requires m[o].Gray? ==>
      && !h[o].Udata? && (h[o].UpVal? ==> IsOpen(h[o]))
      && (Queued(h[o]) ==> o in gray || o in grayagain || o in weak)
    requires m[o].Black? ==>
      && !NeverBlack(h[o]) && (Queued(h[o]) ==> o !in gray && o !in grayagain && o !in weak)
      && forall k :: Mentions(h, o, k) ==> NonWhite(m, k)
    ensures TriColor(h, m, gray, grayagain, weak, x)
  {
  }

  /** Marking o, then its value, then settling the colour of o is one round of marking. */
  lemma FirstMark(h: Heap, m0: Marks, m1: Marks, m2: Marks, m3: Marks, o: Ref, s: set<Ref>)
    requires h.Keys == m0.Keys && o in m0 && m0[o].White? && m1 == m0[o := Gray] && o in s
    requires h[o].UpVal? && ValMarked(m2, UpValue(h, h[o].cell))
    requires MarkRound(h, m1, m2, s) && (m3 == m2 || m3 == m2[o := Black])
    ensures MarkRound(h, m0, m3, s)
  {
    forall u | u in h && IsOpen(h[u]) && m0[u].White? && !m3[u].White?
      ensures ValMarked(m3, UpValue(h, h[u].cell))
    {
      assert u != o ==> m1[u].White?;
      assert ValMarked(m2, UpValue(h, h[u].cell));
    }
  }

  lemma EntryScanned(h: Heap, h': Heap, o: Ref, i: nat)
    requires o in h && h[o].Table? && i < |h[o].entries| && h[o].entries[i].val.Nil?
    requires h' == h || h' == h[o := h[o].(entries := h[o].entries[i := Entry(Dead, Nil)])]
    ensures ScannedHeap(h, h')
  {
  }

  lemma SameHeap(h: Heap)
    ensures ScannedHeap(h, h)
  {
  }

  lemma EntriesStay(h: Heap, m: Marks, m': Marks, es: seq<Entry>, i: nat)
    requires StringsMarked(h, m, m') && forall j :: i <= j < |es| ==> EntryMarked(m, es[j])
    ensures forall j :: i <= j < |es| ==> EntryMarked(m', es[j])
  {
  }

  lemma NothingMarked(h: Heap, m: Marks, g: seq<Ref>, s: set<Ref>)
    ensures MarkRound(h, m, m, s) && GrayGrows(m, g, m, g)
  {
  }

  lemma NoMarks(h: Heap, m: Marks, s: set<Ref>)
    ensures MarkRound(h, m, m, s)
  {
  }

  lemma EntryKept(h: Heap, s: set<Ref>, o: Ref, i: nat)
    requires IsClosed(h, false, s) && o in s && h[o].Table? && i < |h[o].entries| && !h[o].entries[i].val.Nil?
    ensures var e := h[o].entries[i];
      && (!WeakKeys(h, h[o].mt) && e.key.Live? && e.key.v.Obj? ==> e.key.v.r in s)
      && (!WeakVals(h, h[o].mt) && e.val.Obj? ==> e.val.r in s)
  {
    var e, m := h[o].entries[i], h[o].mt;
    var wk, wv := WeakKeys(h, m), WeakVals(h, m);
    if !wk && e.key.Live? && e.key.v.Obj? {
      assert e in h[o].entries && EntryStrong(e, wk, wv, e.key.v.r);
      assert Edge(h, false, o, e.key.v.r);
    }
    if !wv && e.val.Obj? {
      assert e in h[o].entries && EntryStrong(e, wk, wv, e.val.r);
      assert Edge(h, false, o, e.val.r);
    }
  }

  lemma WeakIs(h: Heap, m: Marks, o: Ref)
    requires TableDone(h, m, o) && o in h && h[o].Table? && (WeakKeys(h, h[o].mt) || WeakVals(h, h[o].mt))
    ensures WeakDone(h, m, o)
  {
  }

  lemma DoneRecolor(h: Heap, m: Marks, o: Ref)
    requires TableDone(h, m, o) && NonWhite(m, o)
    ensures TableDone(h, m[o := Gray], o)
  {
    forall i | 0 <= i < |h[o].entries| && EntryDone(m, WeakKeys(h, h[o].mt), WeakVals(h, h[o].mt), h[o].entries[i])
      ensures EntryDone(m[o := Gray], WeakKeys(h, h[o].mt), WeakVals(h, h[o].mt), h[o].entries[i])
    {
    }
  }

  lemma LinkWeak(h: Heap, m: Marks, gray: seq<Ref>, grayagain: seq<Ref>, weak: seq<Ref>, o: Ref)
    requires TriColor(h, m, gray, grayagain, weak, {o}) && o in h && h[o].Table?
    requires o !in gray && o !in grayagain && o !in weak
    ensures TriColor(h, m, gray, grayagain, [o] + weak, {o})
  {
  }

  lemma StackScanned(h: Heap, h': Heap, o: Ref)
    requires o in h && h[o].Thread? && o in h' && h' == h[o := h'[o]] && h'[o].Thread?
      && h'[o] == h[o].(stack := h'[o].stack)
    requires |h'[o].stack| == |h[o].stack|
    requires forall j :: 0 <= j < |h[o].stack| ==> h'[o].stack[j] == if j < h[o].top then h[o].stack[j] else Nil
    ensures ScannedHeap(h, h')
  {
  }

  lemma ScannedMarkRound(h: Heap, h': Heap, m: Marks, m': Marks, s: set<Ref>)
    requires ScannedHeap(h, h') && UpvalsBelowTop(h) && h.Keys == m.Keys && MarkRound(h, m, m', s)
    ensures MarkRound(h', m, m', s)
  {
    forall u | u in h && IsOpen(h'[u]) && m[u].White? && !m'[u].White?
      ensures ValMarked(m', UpValue(h', h'[u].cell))
    {
      assert ScannedObject(h[u], h'[u]);
      ScannedUpValue(h, h', u);
    }
  }

  /** Taking the first gray object off its list, to scan it, leaves it exempt. */
  lemma PopGray(h: Heap, m: Marks, gray: seq<Ref>, grayagain: seq<Ref>, weak: seq<Ref>, s: set<Ref>)
    requires TriColor(h, m, gray, grayagain, weak, {}) && gray != []
    ensures var o := gray[0];
      && o in m && m[o].Gray? && Queued(h[o]) && o !in gray[1..] && o !in grayagain && o !in weak
      && TriColor(h, m[o := Black], gray[1..], grayagain, weak, {o})
      && TriColor(h, m, gray[1..], grayagain, weak, {o})
  {
    var o := gray[0];
    assert forall r :: r in gray <==> r == o || r in gray[1..];
  }

  lemma Requeue(h: Heap, m: Marks, gray: seq<Ref>, grayagain: seq<Ref>, weak: seq<Ref>, o: Ref)
    requires TriColor(h, m, gray, grayagain, weak, {o}) && o in m && m[o].Gray? && Queued(h[o])
    requires o !in gray && o !in grayagain && o !in weak && m[o := Black][o := Gray] == m && !h[o].Udata?
      && !h[o].UpVal?
    ensures TriColor(h, m, gray, [o] + grayagain, weak, {})
  {
  }

  /** Scanning o, with its own colour set before and after, advances the mark phase. */
  lemma ThreadStays(h: Heap, h': Heap, m: Marks, m': Marks, o: Ref, s: set<Ref>)
    requires ScannedHeap(h, h') && o in h && h[o].Thread? && MarkRound(h', m, m', s) && o in m && !m[o].White?
    ensures o in h' && h'[o].Thread? && o in m' && m'[o] == m[o] && !IsWeak(h', o)
  {
    assert ScannedObject(h[o], h'[o]);
  }

  lemma Advanced(h0: Heap, m0: Marks, h: Heap, m1: Marks, m2: Marks, m3: Marks, o: Ref, s: set<Ref>)
    requires h0.Keys == m0.Keys && ScannedHeap(h0, h) && NonWhite(m0, o) && (forall r :: NonWhite(m0, r) ==> r in s)
    requires (m1 == m0 || m1 == m0[o := Black]) && MarkRound(h, m1, m2, s) && (m3 == m2 || m3 == m2[o := Gray])
    ensures Advance(h0, m0, h, m3) && (forall r :: NonWhite(m3, r) ==> r in s)
    ensures Whites(m1) == Whites(m0) && Whites(m3) == Whites(m2) <= Whites(m1)
  {
    Recoloured(m0, m1, o, Black);
    Recoloured(m2, m3, o, Gray);
    hide ScannedHeap;
  }

  lemma Recoloured(m: Marks, m': Marks, o: Ref, c: Color)
    requires NonWhite(m, o) && !c.White? && (m' == m || m' == m[o := c])
    ensures Whites(m') == Whites(m) && m'.Keys == m.Keys && (forall r :: NonWhite(m', r) == NonWhite(m, r))
      && (forall r :: r in m && m[r].White? ==> m'[r] == m[r])
  {
  }

  lemma LinkGray(h: Heap, m: Marks, gray: seq<Ref>, grayagain: seq<Ref>, weak: seq<Ref>, x: set<Ref>, o: Ref)
    requires TriColor(h, m, gray, grayagain, weak, x) && o in m && m[o].White? && o !in x && Queued(h[o])
    ensures TriColor(h, m[o := Gray], [o] + gray, grayagain, weak, x)
  {
  }
}
