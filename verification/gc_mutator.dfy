/** The steps of the mutator that the collector must survive: stores through the write
    barriers, stack changes, allocation and upvalues. */
module GcMutator {
  import opened Shared
  import opened GcHeap
  import opened GcState
  import opened GcInv
  import opened GcSweep
  import opened Gc

  // ----------------------------------------------- changing one object

  /** A store keeps the kind of an object, and the collector's view of threads and upvalues. */
  ghost predicate SameShape(h: Heap, o: Object, o': Object) {
    match o
    case String => o'.String?
    case Udata(_, _) => o'.Udata?
    case UpVal(c) => o'.UpVal? && (c.Closed? <==> o'.cell.Closed?) && (c.Open? ==> o' == o)
    case Closure(_) => o'.Closure?
    case Proto(_) => o'.Proto?
    case Table(_, _, _, _) => o'.Table?
    case Thread(_, _, _, open) =>
      && o'.Thread? && o'.open == open && o'.top <= |o'.stack|
      && forall u :: u in open && u in h && IsOpen(h[u]) ==> h[u].cell.slot < o'.top
  }

  /** Each reference of o' was there before, in the same place for a stack slot, or is to a live object. */
  ghost predicate AddsOnly(h: Heap, r: Ref, o': Object, live: set<Ref>)
    requires r in h
  {
    if h[r].Thread? && o'.Thread? then
      && (o'.gt.Obj? ==> o'.gt == h[r].gt || o'.gt.r in live)
      && forall i :: 0 <= i < |o'.stack| && o'.stack[i].Obj? ==>
           (i < |h[r].stack| && o'.stack[i] == h[r].stack[i]) || o'.stack[i].r in live
    else
      forall k :: Holds(h[r := o'], r, k) ==> Holds(h, r, k) || k in live
  }

  lemma UpdatePlaced(s: State, r: Ref, o': Object)
    requires Placed(s) && r in s.heap && SameShape(s.heap, s.heap[r], o')
    ensures Placed(s.(heap := s.heap[r := o']))
  {
    hide Threads, StringLists;
    var h, h' := s.heap, s.heap[r := o'];
    UpdateThreads(h, r, o');
    StringsApart(h, s.strt, h');
  }

  lemma UpdateThreads(h: Heap, r: Ref, o': Object)
    requires Threads(h) && r in h && SameShape(h, h[r], o')
    ensures Threads(h[r := o'])
  {
    var h' := h[r := o'];
    forall t | t in h' && h'[t].Thread? ensures ThreadOk(h', t) {
      assert ThreadOk(h, t);
      forall u | u in h'[t].open ensures u in h' && IsOpen(h'[u]) && h'[u].cell.th == t && h'[u].cell.slot < h'[t].top {
        assert u in h[t].open;
        assert h'[u] == h[u];
      }
    }
    forall u | u in h' && IsOpen(h'[u]) ensures UpvalOk(h', u) {
      assert UpvalOk(h, u);
    }
  }

  lemma UpdateSafe(s: State, r: Ref, o': Object)
    requires Placed(s) && Safe(s) && r in s.heap && SameShape(s.heap, s.heap[r], o')
      && AddsOnly(s.heap, r, o', LiveSet(s))
    ensures Safe(s.(heap := s.heap[r := o']))
  {
    var s' := s.(heap := s.heap[r := o']);
    assert LiveSet(s') == LiveSet(s);
    forall q, k | q in LiveSet(s') && Edge(s'.heap, true, q, k) ensures k in LiveSet(s') {
      UpdateHolds(s, r, o', q, k);
      assert Holds(s.heap, q, k) ==> Edge(s.heap, true, q, k);
    }
  }

  lemma UpdateHolds(s: State, r: Ref, o': Object, q: Ref, k: Ref)
    requires Placed(s) && r in s.heap && q in s.heap && SameShape(s.heap, s.heap[r], o')
      && AddsOnly(s.heap, r, o', LiveSet(s))
    requires Holds(s.heap[r := o'], q, k)
    ensures Holds(s.heap, q, k) || k in LiveSet(s)
  {
    hide StringLists;
    var h, h' := s.heap, s.heap[r := o'];
    if q != r && IsOpen(h[q]) {
      assert UpvalOk(h, q);
      assert ThreadOk(h, h[q].cell.th);
    } else if q == r && h[r].Thread? {
      if o'.gt != Obj(k) {
        var i :| 0 <= i < |o'.stack| && o'.stack[i] == Obj(k);
      }
    }
  }

  lemma UpdateTri(s: State, r: Ref, o': Object, x: set<Ref>)
    requires TriColor(s.heap, s.mark, s.gray, s.grayagain, s.weak, {}) && r in s.heap
      && SameShape(s.heap, s.heap[r], o')
    requires x == {} || x == {r}
    requires s.mark[r].Black? && x == {} ==> forall k :: Mentions(s.heap[r := o'], r, k) ==> NonWhite(s.mark, k)
    ensures TriColor(s.heap[r := o'], s.mark, s.gray, s.grayagain, s.weak, x)
  {
    var h, h' := s.heap, s.heap[r := o'];
    forall q, k | q in s.mark && s.mark[q].Black? && q !in x && Mentions(h', q, k) ensures NonWhite(s.mark, k) {
      if q != r {
        assert Mentions(h, q, k);
      }
    }
  }

  lemma UpdatePhase(s: State, r: Ref, o': Object)
    requires Placed(s) && PhaseOk(s) && !s.phase.Propagate? && r in s.heap && SameShape(s.heap, s.heap[r], o')
    ensures PhaseOk(s.(heap := s.heap[r := o']))
  {
    hide Placed;
    var s' := s.(heap := s.heap[r := o']);
    if s.phase.Sweep? {
      forall i | 0 <= i < s.sweepAt ensures Swept(s', s'.rootgc[i]) {
        assert Swept(s, s.rootgc[i]);
      }
    }
  }

  /** A store that needs no barrier keeps the invariant. */
  lemma UpdateInv(s: State, r: Ref, o': Object)
    requires Inv(s) && r in s.heap && SameShape(s.heap, s.heap[r], o') && AddsOnly(s.heap, r, o', LiveSet(s))
    requires s.phase.Propagate? && s.mark[r].Black? ==>
      forall k :: Mentions(s.heap[r := o'], r, k) ==> NonWhite(s.mark, k)
    ensures Inv(s.(heap := s.heap[r := o']))
  {
    hide Placed, Safe, AddsOnly, SameShape, TriColor, Mentions;
    UpdatePlaced(s, r, o');
    UpdateSafe(s, r, o');
    if s.phase.Propagate? {
      UpdateTri(s, r, o', {});
    } else {
      UpdatePhase(s, r, o');
    }
  }

  // ------------------------------------------------------- write barriers

  lemma BackTri(s: State, t: Ref)
    requires TriColor(s.heap, s.mark, s.gray, s.grayagain, s.weak, {t}) && t in s.mark && s.mark[t].Black?
      && s.heap[t].Table?
    requires t !in s.gray && t !in s.grayagain && t !in s.weak
    ensures TriColor(s.heap, s.mark[t := Gray], s.gray, [t] + s.grayagain, s.weak, {})
  {
  }

  lemma BlackUnlisted(s: State, r: Ref)
    requires TriColor(s.heap, s.mark, s.gray, s.grayagain, s.weak, {}) && r in s.mark && s.mark[r].Black?
    ensures r !in s.gray && r !in s.grayagain && r !in s.weak
  {
  }

  function Grayed(s: State, t: Ref): State { s.(mark := s.mark[t := Gray], grayagain := [t] + s.grayagain) }

  /** luaC_barrierback: a black table that has been stored to becomes gray again. */
  lemma BarrierBackInv(s: State, t: Ref, o': Object)
    requires Inv(s) && t in s.heap && s.heap[t].Table? && o'.Table? && AddsOnly(s.heap, t, o', LiveSet(s))
      && s.mark[t].Black?
    ensures Inv(Grayed(s.(heap := s.heap[t := o']), t))
  {
    hide Placed, Safe, AddsOnly, TriColor, Holds, IsClosed;
    var s1 := s.(heap := s.heap[t := o']);
    var s2 := Grayed(s1, t);
    UpdatePlaced(s, t, o');
    UpdateSafe(s, t, o');
    PlacedKeys(s);
    PlacedFields(s1, s2);
    assert Safe(s2) by { LiveFields(s1, s2); }
    if s.phase.Propagate? {
      BlackUnlisted(s, t);
      UpdateTri(s, t, o', {t});
      BackTri(s1, t);
    } else {
      UpdatePhase(s, t, o');
      GrayedPhase(s1, t);
    }
  }

  lemma LiveFields(s: State, s': State)
    requires Safe(s) && s'.heap == s.heap && Roots(s') == Roots(s) && LiveSet(s') == LiveSet(s)
    ensures Safe(s')
  {
  }

  lemma GrayedPhase(s: State, t: Ref)
    requires PhaseOk(s) && !s.phase.Propagate? && t in s.mark && s.mark[t].Black?
    ensures PhaseOk(Grayed(s, t))
  {
    var s' := Grayed(s, t);
    if s.phase.Sweep? {
      forall i | 0 <= i < s.sweepAt ensures Swept(s', s'.rootgc[i]) {
        assert Swept(s, s.rootgc[i]);
      }
    }
  }

  predicate IsWhiteValue(m: Marks, v: Value) { v.Obj? && v.r in m && m[v.r].White? }

  /** Store a new version of table t, then run the backward barrier for the value v just put in it. */
  method StoreTable(g: GlobalState, t: Ref, o': Object, v: Value)
    requires Inv(g.View()) && t in g.heap && g.heap[t].Table? && o'.Table? && AddsOnly(g.heap, t, o', LiveSet(g.View()))
    requires forall k :: Mentions(g.heap[t := o'], t, k) ==> Mentions(g.heap, t, k) || v == Obj(k)
    requires v.Obj? ==> v.r in g.heap
    modifies g`heap, g`mark, g`rootgc, g`strt, g`sweepgc, g`gray, g`grayagain, g`uvhead
    ensures Inv(g.View())
    ensures var s := old(g.View()).(heap := old(g.heap)[t := o']);
      g.View() == if t in old(g.mark) && old(g.mark)[t].Black? && IsWhiteValue(old(g.mark), v) then Grayed(s, t) else s
  {
    hide Inv, AddsOnly, Mentions;
    ghost var s := g.View();
    InvCalm(s);
    if g.mark[t].Black? && IsWhiteValue(g.mark, v) {
      BarrierBackInv(s, t, o');
      g.heap := g.heap[t := o'];
      g.mark := g.mark[t := Gray];
      g.grayagain := [t] + g.grayagain;
    } else {
      BlackMentions(s, t);
      UpdateInv(s, t, o');
      g.heap := g.heap[t := o'];
    }
  }

  lemma BlackMentions(s: State, r: Ref)
    requires Inv(s) && r in s.heap
    ensures s.phase.Propagate? && s.mark[r].Black? ==> forall k :: Mentions(s.heap, r, k) ==> NonWhite(s.mark, k)
  {
  }

  /** Store a new version of p, which is not a table, then run the forward barrier for v. */
  method StoreForward(g: GlobalState, p: Ref, o': Object, v: Value)
    requires Inv(g.View()) && p in g.heap && SameShape(g.heap, g.heap[p], o') && !g.heap[p].Table?
      && !NeverBlack(g.heap[p])
    requires !IsDead(g.View(), p) && (v.Obj? ==> v.r in LiveSet(g.View()))
    requires forall k :: Holds(g.heap[p := o'], p, k) ==> Holds(g.heap, p, k) || v == Obj(k)
    modifies g`heap, g`mark, g`rootgc, g`strt, g`sweepgc, g`gray, g`grayagain, g`uvhead
    ensures Inv(g.View()) && g.heap == old(g.heap)[p := o']
  {
    hide Inv, TriColor, UpvalsBelowTop, IsClosed, GrayGrows, MarkRound, Placed, Safe;
    ghost var s := g.View();
    InvCalm(s);
    assert AddsOnly(g.heap, p, o', LiveSet(s));
    if g.mark[p].Black? && IsWhiteValue(g.mark, v) {
      BarrierForward(g, p, o', v);
    } else {
      BlackMentions(s, p);
      UpdateInv(s, p, o');
      g.heap := g.heap[p := o'];
    }
  }

  /** luaC_barrierf: mark the value if marking is under way, and let the object be found again
      by the sweep if not. */
  method BarrierForward(g: GlobalState, p: Ref, o': Object, v: Value)
    requires Inv(g.View()) && p in g.heap && SameShape(g.heap, g.heap[p], o') && !g.heap[p].Table?
      && !NeverBlack(g.heap[p])
    requires AddsOnly(g.heap, p, o', LiveSet(g.View())) && p in g.mark && g.mark[p].Black? && v.Obj? && v.r in g.heap
      && IsWhiteValue(g.mark, v)
    requires forall k :: Holds(g.heap[p := o'], p, k) ==> Holds(g.heap, p, k) || v == Obj(k)
    modifies g`heap, g`mark, g`rootgc, g`strt, g`sweepgc, g`gray, g`grayagain, g`uvhead
    ensures Inv(g.View()) && g.heap == old(g.heap)[p := o']
  {
    hide Inv, TriColor, UpvalsBelowTop, IsClosed, GrayGrows, MarkRound, Placed, Safe, AddsOnly;
    ghost var s := g.View();
    InvCalm(s);
    if g.gcstate.Propagate? {
      ForwardStart(s, p, o');
      g.heap := g.heap[p := o'];
      g.ReallyMarkObject(v.r, {p}, g.heap.Keys);
      ForwardInv(s, p, o', g.View());
    } else {
      g.heap := g.heap[p := o'];
      ForwardWhite(s, p, o');
      g.mark := g.mark[p := White(g.currentwhite)];
    }
  }

  lemma ForwardStart(s: State, p: Ref, o': Object)
    requires Inv(s) && s.phase.Propagate? && p in s.heap && SameShape(s.heap, s.heap[p], o')
      && AddsOnly(s.heap, p, o', LiveSet(s)) && s.mark[p].Black?
    ensures var h' := s.heap[p := o'];
      && h'.Keys == s.mark.Keys && TriColor(h', s.mark, s.gray, s.grayagain, s.weak, {p}) && UpvalsBelowTop(h')
      && IsClosed(h', false, h'.Keys)
      && Placed(s.(heap := h')) && Safe(s.(heap := h')) && NoOtherWhite(s.(heap := h'))
  {
    hide Placed, Safe, AddsOnly, TriColor, IsClosed;
    var s1 := s.(heap := s.heap[p := o']);
    UpdatePlaced(s, p, o');
    UpdateSafe(s, p, o');
    UpdateTri(s, p, o', {p});
    PlacedKeys(s);
    HeapIsClosed(s1);
    assert UpvalsBelowTop(s1.heap) by { PlacedThreads(s1); ThreadsBelowTop(s1.heap); }
  }

  lemma PlacedThreads(s: State)
    requires Placed(s)
    ensures Threads(s.heap)
  {
  }

  lemma ForwardInv(s: State, p: Ref, o': Object, s2: State)
    requires Inv(s) && s.phase.Propagate? && p in s.heap && s.mark[p].Black? && SameShape(s.heap, s.heap[p], o')
      && !s.heap[p].Table? && !NeverBlack(s.heap[p])
    requires Placed(s.(heap := s.heap[p := o'])) && Safe(s.(heap := s.heap[p := o']))
    requires s2 == s.(heap := s.heap[p := o'], mark := s2.mark, gray := s2.gray)
    requires TriColor(s2.heap, s2.mark, s2.gray, s2.grayagain, s2.weak, {p})
    requires MarkRound(s2.heap, s.mark, s2.mark, s2.heap.Keys) && GrayGrows(s.mark, s.gray, s2.mark, s2.gray)
    requires forall k :: Holds(s2.heap, p, k) ==> Holds(s.heap, p, k) || NonWhite(s2.mark, k)
    ensures Inv(s2)
  {
    hide TriColor, MarkRound, Placed, Safe, Holds;
    var s1 := s.(heap := s.heap[p := o']);
    BlackMentions(s, p);
    StartMark(s);
    BlackUnlisted(s, p);
    Darkens(s2.heap, s.mark, s2.mark, s2.heap.Keys);
    GrayShrinks(s.mark, s.gray, s2.mark, s2.gray);
    assert {} + {p} == {p};
    Settle(s2.heap, s2.mark, s2.gray, s2.grayagain, s2.weak, {}, p);
    AdvanceFromMark(s2.heap, s.mark, s2.mark, s2.heap.Keys);
    MarkStepInv(s1, s2);
  }

  lemma ForwardWhite(s: State, p: Ref, o': Object)
    requires Inv(s) && !s.phase.Propagate? && p in s.heap && SameShape(s.heap, s.heap[p], o')
      && AddsOnly(s.heap, p, o', LiveSet(s)) && s.mark[p].Black?
    requires !s.heap[p].Thread?
    ensures Inv(s.(heap := s.heap[p := o'], mark := s.mark[p := White(s.cw)]))
  {
    hide AddsOnly, Placed, Safe, SweepRel, PhaseOk;
    var s1 := s.(heap := s.heap[p := o']);
    var s2 := s1.(mark := s.mark[p := White(s.cw)]);
    UpdateInv(s, p, o');
    InvCalm(s1);
    Whitened(s1, p);
    assert s2.rootgc[0..] == s1.rootgc;
    PhaseStays(s1, s2, 0);
  }

  // --------------------------------------------------- stores by the mutator

  lemma AccessibleLive(s: State, v: Value)
    requires Inv(s) && AccessibleValue(s, v)
    ensures v.Obj? ==> v.r in LiveSet(s) && v.r in s.heap
  {
    if v.Obj? {
      AccessibleIsLive(s, v.r);
    }
  }

  /** Write a stack slot, of the running thread or, through an open upvalue, of another.
      No barrier: a thread is never black. */
  method SetSlot(g: GlobalState, t: Ref, i: nat, v: Value)
    requires Inv(g.View()) && t in g.heap && g.heap[t].Thread? && i < |g.heap[t].stack| && AccessibleValue(g.View(), v)
    modifies g`heap, g`mark, g`rootgc, g`strt, g`sweepgc, g`gray, g`grayagain, g`uvhead
    ensures Inv(g.View()) && g.View() == old(g.View()).(heap :=
      old(g.heap)[t := old(g.heap)[t].(stack := old(g.heap)[t].stack[i := v])])
  {
    hide Inv, AccessibleValue;
    AccessibleLive(g.View(), v);
    StackOk(g.View(), t);
    SlotInv(g.View(), t, g.heap[t].(stack := g.heap[t].stack[i := v]));
    g.heap := g.heap[t := g.heap[t].(stack := g.heap[t].stack[i := v])];
  }

  lemma SlotInv(s: State, t: Ref, o': Object)
    requires Inv(s) && t in s.heap && s.heap[t].Thread? && o'.Thread? && o'.open == s.heap[t].open
      && o'.top <= |o'.stack|
    requires forall u :: u in o'.open && u in s.heap && IsOpen(s.heap[u]) ==>
      s.heap[u].cell.slot < o'.top || o'.top >= s.heap[t].top
    requires AddsOnly(s.heap, t, o', LiveSet(s))
    ensures Inv(s.(heap := s.heap[t := o']))
  {
    assert ThreadOk(s.heap, t);
    hide Placed, Safe, AddsOnly, TriColor;
    assert s.phase.Propagate? ==> !s.mark[t].Black? by { InvCalm(s); }
    UpdateInv(s, t, o');
  }

  /** Move the top of a stack; upvalues above it must have been closed. */
  method SetTop(g: GlobalState, t: Ref, n: nat)
    requires Inv(g.View()) && t in g.heap && g.heap[t].Thread? && n <= |g.heap[t].stack|
    requires forall u :: u in g.heap[t].open && u in g.heap && IsOpen(g.heap[u]) ==> g.heap[u].cell.slot < n
    modifies g`heap, g`mark, g`rootgc, g`strt, g`sweepgc, g`gray, g`grayagain, g`uvhead
    ensures Inv(g.View()) && g.View() == old(g.View()).(heap := old(g.heap)[t := old(g.heap)[t].(top := n)])
  {
    hide Inv;
    SlotInv(g.View(), t, g.heap[t].(top := n));
    g.heap := g.heap[t := g.heap[t].(top := n)];
  }

  /** Grow the stack area with empty slots, or cut unused slots off it. */
  method ResizeStack(g: GlobalState, t: Ref, n: nat)
    requires Inv(g.View()) && t in g.heap && g.heap[t].Thread? && g.heap[t].top <= n
    modifies g`heap, g`mark, g`rootgc, g`strt, g`sweepgc, g`gray, g`grayagain, g`uvhead
    ensures Inv(g.View()) && t in g.heap && g.heap[t].Thread? && |g.heap[t].stack| == n
    ensures g.View() == old(g.View()).(heap := old(g.heap)[t := old(g.heap)[t].(stack := g.heap[t].stack)])
    ensures forall i :: 0 <= i < n ==>
      g.heap[t].stack[i] == if i < |old(g.heap)[t].stack| then old(g.heap)[t].stack[i] else Nil
  {
    hide Inv;
    var was := g.heap[t].stack;
    var stack := seq(n, i requires 0 <= i < n => if i < |was| then was[i] else Nil);
    SlotInv(g.View(), t, g.heap[t].(stack := stack));
    g.heap := g.heap[t := g.heap[t].(stack := stack)];
  }

  ghost predicate LiveValue(s: State, v: Value) { v.Obj? ==> v.r in s.heap && v.r in LiveSet(s) }

  /** t[k] = v for a key that has a node already, possibly with an empty value. */
  method SetEntry(g: GlobalState, t: Ref, i: nat, v: Value)
    requires Inv(g.View()) && t in g.heap && g.heap[t].Table? && i < |g.heap[t].entries|
      && g.heap[t].entries[i].key.Live?
    requires LiveValue(g.View(), g.heap[t].entries[i].key.v) && LiveValue(g.View(), v)
    modifies g`heap, g`mark, g`rootgc, g`strt, g`sweepgc, g`gray, g`grayagain, g`uvhead
    ensures Inv(g.View())
    ensures g.heap == old(g.heap)[t := old(g.heap)[t].(entries := old(g.heap)[t].entries[i :=
      Entry(old(g.heap)[t].entries[i].key, v)])]
  {
    hide Inv, LiveSet;
    var e := g.heap[t].entries[i];
    var o' := g.heap[t].(entries := g.heap[t].entries[i := Entry(e.key, v)]);
    EntryAdds(g.View(), t, i, Entry(e.key, v), v);
    StoreTable(g, t, o', v);
  }

  /** luaH_newkey: a key takes an empty node, whose old key is forgotten. */
  method NewKey(g: GlobalState, t: Ref, i: nat, k: Value)
    requires Inv(g.View()) && t in g.heap && g.heap[t].Table? && i < |g.heap[t].entries|
      && g.heap[t].entries[i].val.Nil?
    requires LiveValue(g.View(), k)
    modifies g`heap, g`mark, g`rootgc, g`strt, g`sweepgc, g`gray, g`grayagain, g`uvhead
    ensures Inv(g.View()) && LiveSet(g.View()) == old(LiveSet(g.View()))
    ensures g.heap ==
      old(g.heap)[t := old(g.heap)[t].(entries := old(g.heap)[t].entries[i := Entry(Live(k), Nil)])]
  {
    hide Inv, LiveSet;
    ghost var s := g.View();
    var o' := g.heap[t].(entries := g.heap[t].entries[i := Entry(Live(k), Nil)]);
    EntryAdds(g.View(), t, i, Entry(Live(k), Nil), k);
    StoreTable(g, t, o', k);
    StoredLive(s, t, o', g.View());
  }

  /** A table that is stored to stays alive, and everything else as well. */
  lemma StoredLive(s: State, t: Ref, o': Object, s': State)
    requires t in s.heap && s'.heap == s.heap[t := o'] && s'.cw == s.cw && s'.fixed == s.fixed
    requires s'.mark == s.mark || (t in s.mark && s.mark[t].Black? && s'.mark == s.mark[t := Gray])
    ensures LiveSet(s') == LiveSet(s)
  {
  }

  /** The entry put at i brings in only v, besides what the entry there mentioned. */
  lemma EntryAdds(s: State, t: Ref, i: nat, e: Entry, v: Value)
    requires t in s.heap && s.heap[t].Table? && i < |s.heap[t].entries|
    requires (e.key == s.heap[t].entries[i].key && e.val == v) || (e.key == Live(v) && e.val.Nil?)
    requires v.Obj? ==> v.r in LiveSet(s)
    requires e.key.Live? && e.key.v.Obj? ==> e.key.v.r in LiveSet(s)
    ensures var o' := s.heap[t].(entries := s.heap[t].entries[i := e]);
      && AddsOnly(s.heap, t, o', LiveSet(s))
      && forall k :: Mentions(s.heap[t := o'], t, k) ==> Mentions(s.heap, t, k) || v == Obj(k)
  {
    var es := s.heap[t].entries;
    var o' := s.heap[t].(entries := es[i := e]);
    var h' := s.heap[t := o'];
    forall k | Holds(h', t, k) ensures Holds(s.heap, t, k) || k in LiveSet(s) {
      if o'.mt != Obj(k) {
        var e' :| e' in o'.entries && EntryHolds(e', k);
        var j :| 0 <= j < |o'.entries| && o'.entries[j] == e';
        if j != i {
          assert es[j] in es && EntryHolds(es[j], k);
        }
      }
    }
    forall k | Mentions(h', t, k) ensures Mentions(s.heap, t, k) || v == Obj(k) {
      if o'.mt != Obj(k) {
        var e' :| e' in o'.entries && EntryMentions(e', k);
        var j :| 0 <= j < |o'.entries| && o'.entries[j] == e';
        if j != i {
          assert es[j] in es && EntryMentions(es[j], k);
        } else if v != Obj(k) {
          assert es[i] in es && EntryMentions(es[i], k);
        }
      }
    }
  }

  /** A rehash lays the used entries out afresh among empty nodes. */
  method Rehash(g: GlobalState, t: Ref, es: seq<Entry>)
    requires Inv(g.View()) && t in g.heap && g.heap[t].Table?
    requires forall e :: e in es ==> e == Entry(Live(Nil), Nil) || (e in g.heap[t].entries && !e.val.Nil?)
    modifies g`heap, g`mark, g`rootgc, g`strt, g`sweepgc, g`gray, g`grayagain, g`uvhead
    ensures Inv(g.View()) && g.View() == old(g.View()).(heap := old(g.heap)[t := old(g.heap)[t].(entries := es)])
  {
    hide Inv;
    var o' := g.heap[t].(entries := es);
    RehashAdds(g.View(), t, es);
    StoreTable(g, t, o', Nil);
  }

  lemma RehashAdds(s: State, t: Ref, es: seq<Entry>)
    requires t in s.heap && s.heap[t].Table?
    requires forall e :: e in es ==> e == Entry(Live(Nil), Nil) || (e in s.heap[t].entries && !e.val.Nil?)
    ensures var o' := s.heap[t].(entries := es);
      && AddsOnly(s.heap, t, o', LiveSet(s)) && forall k :: Mentions(s.heap[t := o'], t, k) ==> Mentions(s.heap, t, k)
  {
    var o' := s.heap[t].(entries := es);
    forall k | Holds(s.heap[t := o'], t, k) ensures Holds(s.heap, t, k) {
      if o'.mt != Obj(k) {
        var e :| e in es && EntryHolds(e, k);
      }
    }
    forall k | Mentions(s.heap[t := o'], t, k) ensures Mentions(s.heap, t, k) {
      if o'.mt != Obj(k) {
        var e :| e in es && EntryMentions(e, k);
      }
    }
  }

  /** Give a table a metatable, or change the weak mode that it gives as one. */
  method SetMetatable(g: GlobalState, t: Ref, mt: Value, weakKey: bool, weakVal: bool)
    requires Inv(g.View()) && t in g.heap && g.heap[t].Table? && AccessibleValue(g.View(), mt)
    modifies g`heap, g`mark, g`rootgc, g`strt, g`sweepgc, g`gray, g`grayagain, g`uvhead
    ensures Inv(g.View()) && g.heap == old(g.heap)[t :=
      old(g.heap)[t].(mt := mt, weakKey := weakKey, weakVal := weakVal)]
  {
    hide Inv, AccessibleValue;
    AccessibleLive(g.View(), mt);
    StoreTable(g, t, g.heap[t].(mt := mt, weakKey := weakKey, weakVal := weakVal), mt);
  }

  /** Set the table of globals of a thread. */
  method SetGlobals(g: GlobalState, t: Ref, v: Value)
    requires Inv(g.View()) && t in g.heap && g.heap[t].Thread? && AccessibleValue(g.View(), v)
    modifies g`heap, g`mark, g`rootgc, g`strt, g`sweepgc, g`gray, g`grayagain, g`uvhead
    ensures Inv(g.View()) && g.View() == old(g.View()).(heap := old(g.heap)[t := old(g.heap)[t].(gt := v)])
  {
    hide Inv, AccessibleValue;
    AccessibleLive(g.View(), v);
    StackOk(g.View(), t);
    SlotInv(g.View(), t, g.heap[t].(gt := v));
    g.heap := g.heap[t := g.heap[t].(gt := v)];
  }

  lemma StackOk(s: State, t: Ref)
    requires Inv(s) && t in s.heap && s.heap[t].Thread?
    ensures s.heap[t].top <= |s.heap[t].stack|
  {
    assert ThreadOk(s.heap, t);
  }

  /** Set the metatable of a basic type, or switch to another thread: roots change, no barrier. */
  method SetRoots(g: GlobalState, types: seq<Value>, running: Ref)
    requires Inv(g.View()) && (forall v :: v in types ==> AccessibleValue(g.View(), v))
    requires Accessible(g.View(), running) && running in g.heap && g.heap[running].Thread?
    modifies g`types, g`running
    ensures Inv(g.View()) && g.View() == old(g.View()).(types := types, running := running)
  {
    hide Inv, AccessibleValue, Accessible;
    RootsInv(g.View(), types, running);
    g.types, g.running := types, running;
  }

  lemma RootsInv(s: State, types: seq<Value>, running: Ref)
    requires Inv(s) && (forall v :: v in types ==> AccessibleValue(s, v))
    requires Accessible(s, running) && running in s.heap && s.heap[running].Thread?
    ensures Inv(s.(types := types, running := running))
  {
    var s' := s.(types := types, running := running);
    hide Accessible, AccessibleValue, TriColor, IsClosed, StringLists, Threads, Swept, BlackKinds;
    assert LiveSet(s') == LiveSet(s);
    forall r | r in Roots(s') ensures r in LiveSet(s') {
      NewRootLive(s, types, running, r);
    }
    SamePhase(s, s');
  }

  lemma NewRootLive(s: State, types: seq<Value>, running: Ref, r: Ref)
    requires Inv(s) && (forall v :: v in types ==> AccessibleValue(s, v)) && Accessible(s, running)
    requires r in Roots(s.(types := types, running := running))
    ensures r in LiveSet(s)
  {
    hide Inv, Accessible, AccessibleValue;
    if r == running {
      AccessibleIsLive(s, r);
    } else if Obj(r) in types {
      AccessibleLive(s, Obj(r));
    } else {
      MainRoots(s, r);
    }
  }

  lemma MainRoots(s: State, r: Ref)
    requires Inv(s) && (r == s.main || r == s.registry)
    ensures r in LiveSet(s)
  {
    hide Placed, PhaseOk, IsClosed;
    assert r in Roots(s);
  }

  lemma SamePhase(s: State, s': State)
    requires PhaseOk(s) && s' == s.(types := s'.types, running := s'.running)
    ensures PhaseOk(s')
  {
    hide TriColor;
    if s.phase.Sweep? {
      forall i | 0 <= i < s.sweepAt ensures Swept(s', s'.rootgc[i]) {
        assert Swept(s, s.rootgc[i]);
      }
    }
  }

  // --------------------------------------------------------------- allocation

  function Insert(l: seq<Ref>, p: nat, r: Ref): seq<Ref>
    requires p <= |l|
  {
    l[..p] + [r] + l[p..]
  }

  lemma InsertFacts(l: seq<Ref>, p: nat, r: Ref)
    requires p <= |l| && NoDup(l) && r !in l
    ensures NoDup(Insert(l, p, r)) && forall x :: x in Insert(l, p, r) <==> x in l || x == r
  {
    forall x | x in l ensures x in Insert(l, p, r) {
      var j :| 0 <= j < |l| && l[j] == x;
      assert if j < p then Insert(l, p, r)[j] == x else Insert(l, p, r)[j + 1] == x;
    }
    assert Insert(l, p, r)[p] == r;
  }

  /** luaC_link puts a new object, white, at the front of rootgc; userdata go after the main thread. */
  function Linked(s: State, r: Ref, o: Object, p: nat): State
    requires p <= |s.rootgc|
  {
    s.(heap := s.heap[r := o], mark := s.mark[r := White(s.cw)], rootgc := Insert(s.rootgc, p, r),
       sweepAt := if s.sweepAt <= p then s.sweepAt else s.sweepAt + 1)
  }

  predicate Linkable(o: Object) {
    !o.String? && !IsOpen(o) && (o.Thread? ==> o.open == [] && o.top <= |o.stack|)
  }

  lemma LinkedPlaced(s: State, r: Ref, o: Object, p: nat)
    requires Placed(s) && r !in s.heap && p <= |s.rootgc| && Linkable(o)
    ensures Placed(Linked(s, r, o, p))
  {
    hide Threads, StringLists, Insert, NoDup;
    var s' := Linked(s, r, o, p);
    NewThreads(s.heap, r, o);
    StringsApart(s.heap, s.strt, s'.heap);
    InsertFacts(s.rootgc, p, r);
  }

  lemma NewThreads(h: Heap, r: Ref, o: Object)
    requires Threads(h) && r !in h && !IsOpen(o) && (o.Thread? ==> o.open == [] && o.top <= |o.stack|)
    ensures Threads(h[r := o])
  {
    var h' := h[r := o];
    forall t | t in h' && h'[t].Thread? ensures ThreadOk(h', t) {
      if t != r {
        assert ThreadOk(h, t);
      }
    }
    forall u | u in h' && IsOpen(h'[u]) ensures UpvalOk(h', u) {
      assert UpvalOk(h, u);
    }
  }

  /** A new white object that refers to live ones is no danger. */
  lemma NewSafe(s: State, r: Ref, o: Object, s': State)
    requires Placed(s) && Safe(s) && r !in s.heap && Threads(s.heap) && s'.heap == s.heap[r := o]
      && s'.mark == s.mark[r := White(s.cw)]
    requires s'.cw == s.cw && s'.fixed == s.fixed && Roots(s') == Roots(s)
    requires forall k :: Holds(s'.heap, r, k) ==> k in LiveSet(s)
    ensures Safe(s') && LiveSet(s') == LiveSet(s) + {r}
  {
    hide StringLists;
    assert LiveSet(s') == LiveSet(s) + {r};
    forall q, k | q in LiveSet(s') && Edge(s'.heap, true, q, k) ensures k in LiveSet(s') {
      if q != r {
        NewHolds(s.heap, r, o, q, k);
        assert Edge(s.heap, true, q, k);
      }
    }
  }

  lemma NewHolds(h: Heap, r: Ref, o: Object, q: Ref, k: Ref)
    requires Threads(h) && r !in h && q in h
    ensures Holds(h[r := o], q, k) <==> Holds(h, q, k)
  {
    if IsOpen(h[q]) {
      assert UpvalOk(h, q);
    }
  }

  lemma NewPhase(s: State, r: Ref, o: Object, p: nat)
    requires Placed(s) && PhaseOk(s) && r !in s.heap && p <= |s.rootgc| && Linkable(o)
    ensures PhaseOk(Linked(s, r, o, p))
  {
    hide Insert, Placed, Swept, TriColor;
    PlacedThreads(s);
    PlacedKeys(s);
    match s.phase
    case Propagate => NewTri(s, r, o);
    case Sweep => NewSwept(s, r, o, p);
    case _ =>
  }

  lemma NewSwept(s: State, r: Ref, o: Object, p: nat)
    requires Placed(s) && PhaseOk(s) && s.phase.Sweep? && r !in s.heap && p <= |s.rootgc| && Linkable(o)
    ensures PhaseOk(Linked(s, r, o, p))
  {
    hide StringLists, Threads;
    var s' := Linked(s, r, o, p);
    assert |s'.rootgc| == |s.rootgc| + 1;
    forall i | 0 <= i < s'.sweepAt ensures Swept(s', s'.rootgc[i]) {
      if i != p {
        var j := if i < p then i else i - 1;
        assert s'.rootgc[i] == s.rootgc[j] && Swept(s, s.rootgc[j]);
        assert s.rootgc[j] in s.rootgc;
        SweptUnder(s, r, o, s', s.rootgc[j]);
      }
    }
  }

  lemma SweptUnder(s: State, r: Ref, o: Object, s': State, q: Ref)
    requires Swept(s, q) && q in s.heap && r !in s.heap && s'.heap == s.heap[r := o]
      && s'.mark == s.mark[r := White(s.cw)] && s'.cw == s.cw
    ensures Swept(s', q)
  {
  }

  lemma NewTri(s: State, r: Ref, o: Object)
    requires TriColor(s.heap, s.mark, s.gray, s.grayagain, s.weak, {}) && r !in s.heap && Threads(s.heap)
    ensures TriColor(s.heap[r := o], s.mark[r := White(s.cw)], s.gray, s.grayagain, s.weak, {})
  {
    var h', m' := s.heap[r := o], s.mark[r := White(s.cw)];
    forall q, k | q in m' && m'[q].Black? && Mentions(h', q, k) ensures NonWhite(m', k) {
      NewHolds(s.heap, r, o, q, k);
      assert Mentions(s.heap, q, k);
    }
  }

  lemma LinkedInv(s: State, r: Ref, o: Object, p: nat)
    requires Inv(s) && r !in s.heap && p <= |s.rootgc| && Linkable(o)
    requires forall k :: Holds(s.heap[r := o], r, k) ==> k in LiveSet(s)
    ensures Inv(Linked(s, r, o, p)) && LiveSet(Linked(s, r, o, p)) == LiveSet(s) + {r}
  {
    InvCalm(s);
    hide Placed, Safe, PhaseOk, Threads, Holds;
    LinkedPlaced(s, r, o, p);
    NewSafe(s, r, o, Linked(s, r, o, p));
    NewPhase(s, r, o, p);
  }

  /** Create an object and store it in a slot of the running thread. Any address that is not
      in use may be handed out, one freed before included. */
  method New(g: GlobalState, r: Ref, o: Object, i: nat)
    requires Inv(g.View()) && r !in g.heap && Linkable(o) && !o.Udata?
    requires forall k :: Holds(g.heap[r := o], r, k) ==> k in LiveSet(g.View())
    requires g.running in g.heap && g.heap[g.running].Thread? && i < |g.heap[g.running].stack|
    modifies g`heap, g`mark, g`rootgc, g`strt, g`sweepgc, g`gray, g`grayagain, g`uvhead
    ensures Inv(g.View()) && r in g.heap && g.heap[r] == o && !IsDead(g.View(), r)
    ensures var t := old(g.running);
      g.heap == old(g.heap)[r := o][t := old(g.heap)[t].(stack := old(g.heap)[t].stack[i := Obj(r)])]
  {
    hide Inv, LiveSet, Holds, Linked, Linkable;
    Link(g, r, o, 0);
    Anchor(g, r, i);
    LiveIs(g.View(), r);
  }

  /** Userdata are linked after the main thread. */
  method NewUdata(g: GlobalState, r: Ref, mt: Value, env: Value, i: nat)
    requires Inv(g.View()) && r !in g.heap && AccessibleValue(g.View(), mt) && AccessibleValue(g.View(), env)
    requires g.running in g.heap && g.heap[g.running].Thread? && i < |g.heap[g.running].stack|
    modifies g`heap, g`mark, g`rootgc, g`strt, g`sweepgc, g`gray, g`grayagain, g`uvhead
    ensures Inv(g.View()) && r in g.heap && g.heap[r] == Udata(mt, env) && !IsDead(g.View(), r)
    ensures var t := old(g.running);
      g.heap == old(g.heap)[r := Udata(mt, env)][t := old(g.heap)[t].(stack := old(g.heap)[t].stack[i := Obj(r)])]
  {
    hide Inv, AccessibleValue, LiveSet;
    AccessibleLive(g.View(), mt);
    AccessibleLive(g.View(), env);
    MainIsListed(g.View());
    UdataHolds(g.View(), r, mt, env);
    var p :| 0 <= p < |g.rootgc| && g.rootgc[p] == g.mainthread;
    hide Holds, Linked;
    Link(g, r, Udata(mt, env), p + 1);
    Anchor(g, r, i);
    LiveIs(g.View(), r);
  }

  lemma MainIsListed(s: State)
    requires Inv(s)
    ensures s.main in s.rootgc
  {
    hide Safe, PhaseOk, Threads, StringLists;
  }

  lemma UdataHolds(s: State, r: Ref, mt: Value, env: Value)
    requires (mt.Obj? ==> mt.r in LiveSet(s)) && (env.Obj? ==> env.r in LiveSet(s))
    ensures forall k :: Holds(s.heap[r := Udata(mt, env)], r, k) ==> k in LiveSet(s)
  {
    hide LiveSet;
  }

  lemma LiveIs(s: State, r: Ref)
    requires r in LiveSet(s)
    ensures r in s.heap && !IsDead(s, r)
  {
  }

  method Link(g: GlobalState, r: Ref, o: Object, p: nat)
    requires Inv(g.View()) && r !in g.heap && p <= |g.rootgc| && Linkable(o)
    requires forall k :: Holds(g.heap[r := o], r, k) ==> k in LiveSet(g.View())
    modifies g`heap, g`mark, g`rootgc, g`strt, g`sweepgc, g`gray, g`grayagain, g`uvhead
    ensures Inv(g.View()) && g.View() == Linked(old(g.View()), r, o, p) && r in LiveSet(g.View())
    ensures g.heap == old(g.heap)[r := o] && g.running == old(g.running)
  {
    hide Inv, LiveSet;
    LinkedInv(g.View(), r, o, p);
    g.heap := g.heap[r := o];
    g.mark := g.mark[r := White(g.currentwhite)];
    g.rootgc := Insert(g.rootgc, p, r);
    g.sweepgc := if g.sweepgc <= p then g.sweepgc else g.sweepgc + 1;
  }

  method Anchor(g: GlobalState, r: Ref, i: nat)
    requires Inv(g.View()) && r in LiveSet(g.View()) && g.running in g.heap && g.heap[g.running].Thread?
      && i < |g.heap[g.running].stack|
    modifies g`heap, g`mark, g`rootgc, g`strt, g`sweepgc, g`gray, g`grayagain, g`uvhead
    ensures Inv(g.View()) && g.View() == old(g.View()).(heap := g.heap) && r in LiveSet(g.View())
    ensures g.heap == old(g.heap)[g.running :=
      old(g.heap)[g.running].(stack := old(g.heap)[g.running].stack[i := Obj(r)])]
  {
    hide Inv;
    StackOk(g.View(), g.running);
    SlotInv(g.View(), g.running, g.heap[g.running].(stack := g.heap[g.running].stack[i := Obj(r)]));
    g.heap := g.heap[g.running := g.heap[g.running].(stack := g.heap[g.running].stack[i := Obj(r)])];
  }

  // ------------------------------------------------------------------ strings

  function Interned(s: State, r: Ref, b: nat): State
    requires b < |s.strt|
  {
    s.(heap := s.heap[r := String], mark := s.mark[r := White(s.cw)], strt := s.strt[b := [r] + s.strt[b]])
  }

  lemma InternedInv(s: State, r: Ref, b: nat)
    requires Inv(s) && r !in s.heap && b < |s.strt|
    ensures Inv(Interned(s, r, b)) && LiveSet(Interned(s, r, b)) == LiveSet(s) + {r}
  {
    hide Safe, PhaseOk, Placed, Threads;
    InvCalm(s);
    InternedPlaced(s, r, b);
    StringsHoldNothing(s.heap[r := String], r);
    NewSafe(s, r, String, Interned(s, r, b));
    InternedPhase(s, r, b);
  }

  lemma InternedPlaced(s: State, r: Ref, b: nat)
    requires Placed(s) && r !in s.heap && b < |s.strt|
    ensures Placed(Interned(s, r, b))
  {
    hide Threads, StringLists;
    NewThreads(s.heap, r, String);
    InternedStrings(s.heap, s.strt, r, b);
  }

  lemma InternedStrings(h: Heap, strt: seq<seq<Ref>>, r: Ref, b: nat)
    requires StringLists(h, strt) && r !in h && b < |strt|
    ensures StringLists(h[r := String], strt[b := [r] + strt[b]])
  {
    var strt', h' := strt[b := [r] + strt[b]], h[r := String];
    assert r in strt'[b];
    assert !InStrings(strt, r);
    forall x | x in h' && h'[x].String? ensures InStrings(strt', x) {
      if x != r {
        assert InStrings(strt, x);
        var c :| 0 <= c < |strt| && x in strt[c];
        assert x in strt'[c];
      }
    }
    forall x | InStrings(strt', x) ensures x in h' && h'[x].String? {
      var c :| 0 <= c < |strt'| && x in strt'[c];
      assert x != r ==> x in strt[c] && InStrings(strt, x);
    }
    assert forall c :: 0 <= c < |strt| ==> r !in strt[c];
  }

  lemma InternedPhase(s: State, r: Ref, b: nat)
    requires Placed(s) && PhaseOk(s) && r !in s.heap && b < |s.strt|
    ensures PhaseOk(Interned(s, r, b))
  {
    hide StringLists, TriColor, Threads;
    if s.phase.Sweep? {
      InternedSweep(s, r, b);
    } else if s.phase.Propagate? {
      NewTri(s, r, String);
    }
  }

  lemma InternedSweep(s: State, r: Ref, b: nat)
    requires Placed(s) && PhaseOk(s) && s.phase.Sweep? && r !in s.heap && b < |s.strt|
    ensures PhaseOk(Interned(s, r, b))
  {
    hide StringLists, Threads, Swept;
    var s' := Interned(s, r, b);
    forall i | 0 <= i < s'.sweepAt ensures Swept(s', s'.rootgc[i]) {
      assert Swept(s, s.rootgc[i]) && s.rootgc[i] in s.rootgc;
      SweptUnder(s, r, String, s', s.rootgc[i]);
    }
  }

  /** Bring a dead object back to life: allowed when what it refers to is alive. */
  lemma RevivedInv(s: State, r: Ref)
    requires Inv(s) && r in s.heap && IsDead(s, r) && (s.heap[r].String? || IsOpen(s.heap[r]))
    requires forall k :: Holds(s.heap, r, k) ==> k in LiveSet(s)
    ensures var s' := s.(mark := s.mark[r := White(s.cw)]); Inv(s') && LiveSet(s') == LiveSet(s) + {r}
  {
    hide Placed, Safe, TriColor, PhaseOk, Holds;
    var s' := s.(mark := s.mark[r := White(s.cw)]);
    PlacedFields(s, s');
    RevivedSafe(s, r);
    RevivedPhase(s, r);
  }

  lemma RevivedPhase(s: State, r: Ref)
    requires Placed(s) && PhaseOk(s) && r in s.heap && IsDead(s, r)
    ensures PhaseOk(s.(mark := s.mark[r := White(s.cw)]))
  {
    hide Placed, TriColor, Swept, BlackKinds;
    PlacedKeys(s);
    var s' := s.(mark := s.mark[r := White(s.cw)]);
    if s.phase.Sweep? || s.phase.SweepString? {
      RevivedKinds(s, r);
    }
    if s.phase.Sweep? {
      forall i | 0 <= i < s'.sweepAt ensures Swept(s', s'.rootgc[i]) {
        assert Swept(s, s.rootgc[i]);
        RevivedSwept(s, r, s.rootgc[i]);
      }
    }
  }

  lemma RevivedKinds(s: State, r: Ref)
    requires BlackKinds(s) && s.heap.Keys == s.mark.Keys && r in s.heap
    ensures BlackKinds(s.(mark := s.mark[r := White(s.cw)]))
  {
  }

  lemma RevivedSwept(s: State, r: Ref, q: Ref)
    requires Swept(s, q) && r in s.mark
    ensures Swept(s.(mark := s.mark[r := White(s.cw)]), q)
  {
  }

  lemma RevivedSafe(s: State, r: Ref)
    requires Safe(s) && r in s.heap && IsDead(s, r)
    requires forall k :: Holds(s.heap, r, k) ==> k in LiveSet(s)
    ensures var s' := s.(mark := s.mark[r := White(s.cw)]); Safe(s') && LiveSet(s') == LiveSet(s) + {r}
  {
    hide Holds;
    var s' := s.(mark := s.mark[r := White(s.cw)]);
    assert LiveSet(s') == LiveSet(s) + {r};
    forall q, k | q in LiveSet(s') && Edge(s'.heap, true, q, k) ensures k in LiveSet(s') {
      assert Edge(s.heap, true, q, k);
    }
  }

  /** Get a string into a slot: a new one, at an address not in use, or one from the string
      table, reachable or not, which comes back to life if it is dead. */
  method GetString(g: GlobalState, r: Ref, b: nat, i: nat)
    requires Inv(g.View()) && b < |g.strt| && (r in g.heap ==> g.heap[r].String?)
    requires g.running in g.heap && g.heap[g.running].Thread? && i < |g.heap[g.running].stack|
    modifies g`heap, g`mark, g`rootgc, g`strt, g`sweepgc, g`gray, g`grayagain, g`uvhead
    ensures Inv(g.View()) && r in g.heap && g.heap[r].String? && !IsDead(g.View(), r)
    ensures var h, t := old(g.heap)[r := String], g.running;
      t in h && h[t].Thread? && i < |h[t].stack| && g.heap == h[t := h[t].(stack := h[t].stack[i := Obj(r)])]
  {
    hide Inv, LiveSet, Holds;
    if r in g.heap {
      ReviveString(g, r);
    } else {
      Intern(g, r, b);
    }
    Anchor(g, r, i);
    LiveIs(g.View(), r);
  }

  method Intern(g: GlobalState, r: Ref, b: nat)
    requires Inv(g.View()) && b < |g.strt| && r !in g.heap
    modifies g`heap, g`mark, g`rootgc, g`strt, g`sweepgc, g`gray, g`grayagain, g`uvhead
    ensures Inv(g.View()) && r in LiveSet(g.View()) && g.heap == old(g.heap)[r := String] && g.running == old(g.running)
  {
    hide Inv, LiveSet, Holds;
    ghost var s := g.View();
    InvCalm(s);
    InternedInv(s, r, b);
    g.heap := g.heap[r := String];
    g.mark := g.mark[r := White(g.currentwhite)];
    g.strt := g.strt[b := [r] + g.strt[b]];
    InBoth(s, g.View(), r);
  }

  method ReviveString(g: GlobalState, r: Ref)
    requires Inv(g.View()) && r in g.heap && g.heap[r].String?
    modifies g`heap, g`mark, g`rootgc, g`strt, g`sweepgc, g`gray, g`grayagain, g`uvhead
    ensures Inv(g.View()) && r in LiveSet(g.View()) && g.heap == old(g.heap) && g.running == old(g.running)
  {
    hide Inv, LiveSet, Holds;
    ghost var s := g.View();
    InvCalm(s);
    if g.mark[r] == White(!g.currentwhite) && r !in g.fixed {
      StringsHoldNothing(g.heap, r);
      RevivedInv(s, r);
      g.mark := g.mark[r := White(g.currentwhite)];
      InBoth(s, g.View(), r);
    } else {
      AliveIs(s, r);
    }
  }

  lemma StringsHoldNothing(h: Heap, r: Ref)
    requires r in h && h[r].String?
    ensures forall k :: !Holds(h, r, k)
  {
  }

  lemma InBoth(s: State, s': State, r: Ref)
    requires LiveSet(s') == LiveSet(s) + {r}
    ensures r in LiveSet(s')
  {
  }

  lemma AliveIs(s: State, r: Ref)
    requires r in s.heap && !IsDead(s, r)
    ensures r in LiveSet(s)
  {
  }

  /** luaS_fix: a string that is never collected. */
  method FixString(g: GlobalState, r: Ref)
    requires Inv(g.View()) && r in g.heap && g.heap[r].String?
    modifies g`fixed
    ensures Inv(g.View()) && g.View() == old(g.View()).(fixed := old(g.fixed) + {r})
  {
    hide Inv;
    FixedInv(g.View(), r);
    g.fixed := g.fixed + {r};
  }

  lemma FixedInv(s: State, r: Ref)
    requires Inv(s) && r in s.heap && s.heap[r].String?
    ensures Inv(s.(fixed := s.fixed + {r}))
  {
    hide Placed, Safe, TriColor;
    var s' := s.(fixed := s.fixed + {r});
    FixedPlaced(s, r);
    FixedSafe(s, r);
    if s.phase.Sweep? {
      forall i | 0 <= i < s'.sweepAt ensures Swept(s', s'.rootgc[i]) {
        assert Swept(s, s.rootgc[i]);
      }
    }
  }

  lemma FixedPlaced(s: State, r: Ref)
    requires Placed(s) && r in s.heap && s.heap[r].String?
    ensures Placed(s.(fixed := s.fixed + {r}))
  {
    hide Threads, StringLists;
  }

  lemma FixedSafe(s: State, r: Ref)
    requires Safe(s) && r in s.heap && s.heap[r].String?
    ensures Safe(s.(fixed := s.fixed + {r}))
  {
    hide Holds;
    var s' := s.(fixed := s.fixed + {r});
    assert LiveSet(s') == LiveSet(s) + {r};
    StringsHoldNothing(s.heap, r);
    forall q, k | q in LiveSet(s') && Edge(s'.heap, true, q, k) ensures k in LiveSet(s') {
      assert Edge(s.heap, true, q, k);
    }
  }

  // ----------------------------------------------------------------- upvalues

  /** A new open upvalue for a slot of thread t takes its place at position p of t's list. */
  function Opened(s: State, t: Ref, p: nat, u: Ref, level: nat): State
    requires t in s.heap && s.heap[t].Thread? && p <= |s.heap[t].open|
  {
    s.(heap := s.heap[u := UpVal(Open(t, level))][t := s.heap[t].(open := Insert(s.heap[t].open, p, u))],
       mark := s.mark[u := White(s.cw)], uvhead := [u] + s.uvhead)
  }

  /** The levels above position p are higher, those from p on lower. */
  ghost predicate Splits(h: Heap, t: Ref, p: nat, level: nat) {
    && t in h && h[t].Thread? && p <= |h[t].open| && (forall u :: u in h[t].open ==> u in h && IsOpen(h[u]))
    && (forall j :: 0 <= j < p ==> h[h[t].open[j]].cell.slot > level)
    && (forall j :: p <= j < |h[t].open| ==> h[h[t].open[j]].cell.slot < level)
  }

  lemma OpenedThreads(h: Heap, t: Ref, p: nat, u: Ref, level: nat)
    requires Threads(h) && Splits(h, t, p, level) && u !in h && level < h[t].top
    ensures Threads(h[u := UpVal(Open(t, level))][t := h[t].(open := Insert(h[t].open, p, u))])
  {
    var h' := h[u := UpVal(Open(t, level))][t := h[t].(open := Insert(h[t].open, p, u))];
    assert ThreadOk(h, t);
    OpenedThread(h, t, p, u, level);
    forall q | q in h' && h'[q].Thread? && q != t ensures ThreadOk(h', q) {
      assert ThreadOk(h, q);
      assert u !in h[q].open;
    }
    OpenNoDup(h, t);
    assert u !in h[t].open;
    InsertFacts(h[t].open, p, u);
    forall x | x in h' && IsOpen(h'[x]) ensures UpvalOk(h', x) {
      if x != u {
        assert UpvalOk(h, x);
      }
    }
  }

  lemma OpenedThread(h: Heap, t: Ref, p: nat, u: Ref, level: nat)
    requires t in h && h[t].Thread? && ThreadOk(h, t) && Splits(h, t, p, level) && u !in h && level < h[t].top
    ensures var h' := h[u := UpVal(Open(t, level))][t := h[t].(open := Insert(h[t].open, p, u))]; ThreadOk(h', t)
  {
    var open, l := h[t].open, Insert(h[t].open, p, u);
    var h' := h[u := UpVal(Open(t, level))][t := h[t].(open := l)];
    assert u !in open;
    forall x | x in l ensures x == u || x in open {
    }
    forall i | 0 <= i < |l| ensures h'[l[i]].UpVal? && IsOpen(h'[l[i]]) && h'[l[i]].cell.slot ==
      if i < p then h[open[i]].cell.slot else if i == p then level else h[open[i - 1]].cell.slot
    {
      assert if i < p then l[i] == open[i] else if i == p then l[i] == u else l[i] == open[i - 1];
    }
  }

  lemma OpenedInv(s: State, t: Ref, p: nat, u: Ref, level: nat)
    requires Inv(s) && Splits(s.heap, t, p, level) && u !in s.heap && level < s.heap[t].top && !IsDead(s, t)
    ensures Inv(Opened(s, t, p, u, level)) && LiveSet(Opened(s, t, p, u, level)) == LiveSet(s) + {u}
  {
    InvCalm(s);
    OpenedPlaced(s, t, p, u, level);
    OpenedSafe(s, t, p, u, level);
    OpenedPhase(s, t, p, u, level);
  }

  lemma OpenedPlaced(s: State, t: Ref, p: nat, u: Ref, level: nat)
    requires Placed(s) && t in s.heap && s.heap[t].Thread? && p <= |s.heap[t].open|
    requires Splits(s.heap, t, p, level) && u !in s.heap && level < s.heap[t].top
    ensures Placed(Opened(s, t, p, u, level))
  {
    hide Threads, StringLists, Splits, Insert;
    OpenedThreads(s.heap, t, p, u, level);
    StringsApart(s.heap, s.strt, Opened(s, t, p, u, level).heap);
  }

  lemma OpenedSafe(s: State, t: Ref, p: nat, u: Ref, level: nat)
    requires Placed(s) && Safe(s) && Threads(s.heap) && t in s.heap && s.heap[t].Thread? && p <= |s.heap[t].open|
    requires u !in s.heap && level < s.heap[t].top && !IsDead(s, t)
    ensures Safe(Opened(s, t, p, u, level)) && LiveSet(Opened(s, t, p, u, level)) == LiveSet(s) + {u}
  {
    hide StringLists, Placed, Threads, Opened, Holds;
    var s' := Opened(s, t, p, u, level);
    PlacedKeys(s);
    assert LiveSet(s') == LiveSet(s) + {u} by { OpenedLive(s, t, p, u, level); }
    forall q, k | q in LiveSet(s') && Edge(s'.heap, true, q, k) ensures k in LiveSet(s') {
      OpenedEdge(s, t, p, u, level, q, k);
    }
    assert Roots(s') == Roots(s) by { OpenedLive(s, t, p, u, level); }
  }

  lemma OpenedLive(s: State, t: Ref, p: nat, u: Ref, level: nat)
    requires s.heap.Keys == s.mark.Keys && t in s.heap && s.heap[t].Thread? && p <= |s.heap[t].open| && u !in s.heap
    ensures LiveSet(Opened(s, t, p, u, level)) == LiveSet(s) + {u} && Roots(Opened(s, t, p, u, level)) == Roots(s)
  {
  }

  lemma OpenedEdge(s: State, t: Ref, p: nat, u: Ref, level: nat, q: Ref, k: Ref)
    requires s.heap.Keys == s.mark.Keys && Safe(s) && Threads(s.heap) && t in s.heap && s.heap[t].Thread?
      && p <= |s.heap[t].open|
    requires u !in s.heap && level < s.heap[t].top && !IsDead(s, t)
    requires (q == u || q in LiveSet(s)) && Edge(Opened(s, t, p, u, level).heap, true, q, k)
    ensures k in LiveSet(s)
  {
    assert ThreadOk(s.heap, t);
    if q == u {
      assert s.heap[t].stack[level] == Obj(k);
      assert Edge(s.heap, true, t, k);
    } else {
      if IsOpen(s.heap[q]) {
        assert UpvalOk(s.heap, q);
      }
      assert Edge(s.heap, true, q, k);
    }
  }

  lemma OpenedPhase(s: State, t: Ref, p: nat, u: Ref, level: nat)
    requires Placed(s) && PhaseOk(s) && t in s.heap && s.heap[t].Thread? && p <= |s.heap[t].open| && u !in s.heap
    ensures PhaseOk(Opened(s, t, p, u, level))
  {
    hide StringLists, Threads, TriColor;
    if s.phase.Sweep? {
      OpenedSweep(s, t, p, u, level);
    } else if s.phase.Propagate? {
      OpenedTri(s, t, p, u, level);
    }
  }

  lemma OpenedSweep(s: State, t: Ref, p: nat, u: Ref, level: nat)
    requires Placed(s) && PhaseOk(s) && s.phase.Sweep? && t in s.heap && s.heap[t].Thread? && p <= |s.heap[t].open|
      && u !in s.heap
    ensures PhaseOk(Opened(s, t, p, u, level))
  {
    hide StringLists, Threads, Swept;
    var s' := Opened(s, t, p, u, level);
    forall i | 0 <= i < s'.sweepAt ensures Swept(s', s'.rootgc[i]) {
      assert Swept(s, s.rootgc[i]) && s.rootgc[i] in s.rootgc;
      OpenedSwept(s, t, p, u, level, s.rootgc[i]);
    }
  }

  lemma OpenedSwept(s: State, t: Ref, p: nat, u: Ref, level: nat, q: Ref)
    requires t in s.heap && s.heap[t].Thread? && p <= |s.heap[t].open| && u !in s.heap && Swept(s, q) && q in s.heap
    ensures Swept(Opened(s, t, p, u, level), q)
  {
    if q == t {
      assert forall x :: x in Insert(s.heap[t].open, p, u) ==> x == u || x in s.heap[t].open;
    }
  }

  lemma OpenedTri(s: State, t: Ref, p: nat, u: Ref, level: nat)
    requires Placed(s) && TriColor(s.heap, s.mark, s.gray, s.grayagain, s.weak, {}) && t in s.heap && s.heap[t].Thread?
    requires p <= |s.heap[t].open| && u !in s.heap
    ensures var s' := Opened(s, t, p, u, level); TriColor(s'.heap, s'.mark, s.gray, s.grayagain, s.weak, {})
  {
    hide StringLists, Threads, Mentions, Insert, TriColor;
    var s' := Opened(s, t, p, u, level);
    OpenedMentions(s, t, p, u, level);
    assert s.heap.Keys == s.mark.Keys;
    TriGrows(s.heap, s'.heap, s.mark, s'.mark, s.gray, s.grayagain, s.weak, u);
  }

  lemma TriGrows(h: Heap, h': Heap, m: Marks, m': Marks, gray: seq<Ref>, grayagain: seq<Ref>, weak: seq<Ref>, u: Ref)
    requires TriColor(h, m, gray, grayagain, weak, {}) && u !in h && h'.Keys == h.Keys + {u} && u !in m
      && m'.Keys == m.Keys + {u}
    requires m'[u].White? && forall r :: r in m ==> m'[r] == m[r]
    requires forall r :: r in h ==> h'[r] == h[r] || (h[r].Thread? && h'[r].Thread?)
    requires forall r, k :: r in h && !NeverBlack(h[r]) && Mentions(h', r, k) ==> Mentions(h, r, k)
    ensures TriColor(h', m', gray, grayagain, weak, {})
  {
    hide Mentions;
  }

  lemma OpenedMentions(s: State, t: Ref, p: nat, u: Ref, level: nat)
    requires t in s.heap && s.heap[t].Thread? && p <= |s.heap[t].open| && u !in s.heap
    ensures forall q, k :: q in s.heap && !NeverBlack(s.heap[q]) && Mentions(Opened(s, t, p, u, level).heap, q, k) ==>
      Mentions(s.heap, q, k)
  {
    hide Insert;
  }

  /** luaF_findupval: the one open upvalue of a live thread for a slot, made if there is none.
      newRef is an address not in use. */
  method FindUpval(g: GlobalState, t: Ref, level: nat, newRef: Ref) returns (u: Ref)
    requires Inv(g.View()) && t in g.heap && g.heap[t].Thread? && level < g.heap[t].top && !IsDead(g.View(), t)
      && newRef !in g.heap
    modifies g`heap, g`mark, g`rootgc, g`strt, g`sweepgc, g`gray, g`grayagain, g`uvhead
    ensures Inv(g.View()) && u in g.heap && g.heap[u] == UpVal(Open(t, level)) && u in LiveSet(g.View())
    ensures forall w :: w in old(g.heap) && old(g.heap)[w] == UpVal(Open(t, level)) ==> w == u
    ensures u !in old(g.heap) ==> u == newRef
    ensures u in old(g.heap) ==> g.heap == old(g.heap)
    ensures u !in old(g.heap) ==>
      && t in g.heap && g.heap[t].Thread?
      && g.heap == old(g.heap)[u := UpVal(Open(t, level))][t := old(g.heap)[t].(open := g.heap[t].open)]
    ensures old(LiveSet(g.View())) <= LiveSet(g.View())
  {
    hide Inv, LiveSet, Splits, Opened;
    ghost var s := g.View();
    UpvalLevels(s, t);
    var open, i := g.heap[t].open, 0;
    while i < |open| && g.heap[open[i]].cell.slot > level
      modifies {}
      invariant i <= |open|
      invariant forall j :: 0 <= j < i ==> g.heap[open[j]].cell.slot > level
    {
      i := i + 1;
    }
    OneUpvalPerSlot(s, t, level, i);
    if i < |open| && g.heap[open[i]].cell.slot == level {
      u := open[i];
      Revive(g, t, u);
    } else {
      u := newRef;
      MakeUpval(g, t, i, level, u);
    }
  }

  method Revive(g: GlobalState, t: Ref, u: Ref)
    requires Inv(g.View()) && t in g.heap && g.heap[t].Thread? && !IsDead(g.View(), t)
    requires u in g.heap && u in g.mark && IsOpen(g.heap[u]) && g.heap[u].cell.th == t && u !in g.fixed
    modifies g`heap, g`mark, g`rootgc, g`strt, g`sweepgc, g`gray, g`grayagain, g`uvhead
    ensures Inv(g.View()) && g.heap == old(g.heap) && u in LiveSet(g.View())
    ensures old(LiveSet(g.View())) <= LiveSet(g.View())
  {
    hide Inv, LiveSet, Holds;
    ghost var s := g.View();
    SlotIsLive(s, t, u);
    if g.mark[u] == White(!g.currentwhite) {
      RevivedInv(s, u);
      g.mark := g.mark[u := White(g.currentwhite)];
      InBoth(s, g.View(), u);
    } else {
      AliveIs(s, u);
    }
  }

  method MakeUpval(g: GlobalState, t: Ref, i: nat, level: nat, u: Ref)
    requires Inv(g.View()) && t in g.heap && g.heap[t].Thread? && level < g.heap[t].top && !IsDead(g.View(), t)
      && u !in g.heap
    requires i <= |g.heap[t].open| && Splits(g.heap, t, i, level)
    modifies g`heap, g`mark, g`rootgc, g`strt, g`sweepgc, g`gray, g`grayagain, g`uvhead
    ensures Inv(g.View()) && g.View() == Opened(old(g.View()), t, i, u, level) && u in LiveSet(g.View())
    ensures old(LiveSet(g.View())) <= LiveSet(g.View())
    ensures t in g.heap && g.heap[t].Thread? && g.heap ==
      old(g.heap)[u := UpVal(Open(t, level))][t := old(g.heap)[t].(open := g.heap[t].open)]
    ensures u in g.heap && g.heap[u] == UpVal(Open(t, level))
  {
    hide Inv, LiveSet, Splits, Insert;
    ghost var s := g.View();
    OpenedInv(s, t, i, u, level);
    g.heap := g.heap[u := UpVal(Open(t, level))][t := g.heap[t].(open := Insert(g.heap[t].open, i, u))];
    g.mark := g.mark[u := White(g.currentwhite)];
    g.uvhead := [u] + g.uvhead;
    InBoth(s, g.View(), u);
  }

  lemma UpvalLevels(s: State, t: Ref)
    requires Inv(s) && t in s.heap && s.heap[t].Thread?
    ensures forall u :: u in s.heap[t].open ==>
      u in s.heap && u in s.mark && IsOpen(s.heap[u]) && s.heap[u].cell.th == t && u !in s.fixed
  {
    assert ThreadOk(s.heap, t);
  }

  /** No two open upvalues of a thread read the same slot, and the search finds the place. */
  lemma OneUpvalPerSlot(s: State, t: Ref, level: nat, i: nat)
    requires Inv(s) && t in s.heap && s.heap[t].Thread? && i <= |s.heap[t].open|
    requires forall j :: 0 <= j < |s.heap[t].open| ==>
      s.heap[t].open[j] in s.heap && s.heap[s.heap[t].open[j]].UpVal? && s.heap[s.heap[t].open[j]].cell.Open?
    requires forall j :: 0 <= j < i ==> s.heap[s.heap[t].open[j]].cell.slot > level
    requires i < |s.heap[t].open| ==> s.heap[s.heap[t].open[i]].cell.slot <= level
    ensures i < |s.heap[t].open| && s.heap[s.heap[t].open[i]].cell.slot == level ==>
      forall w :: w in s.heap && s.heap[w] == UpVal(Open(t, level)) ==> w == s.heap[t].open[i]
    ensures !(i < |s.heap[t].open| && s.heap[s.heap[t].open[i]].cell.slot == level) ==>
      Splits(s.heap, t, i, level) && forall w :: w in s.heap ==> s.heap[w] != UpVal(Open(t, level))
  {
    hide Inv, Calm, ThreadOk, Splits;
    InvCalm(s);
    var h, open := s.heap, s.heap[t].open;
    LowerAfter(s, t, i);
    if i < |open| && h[open[i]].cell.slot == level {
      forall w | w in h && h[w] == UpVal(Open(t, level)) ensures w == open[i] {
        SearchFinds(s, t, level, i, w);
      }
    } else {
      forall w | w in h ensures h[w] != UpVal(Open(t, level)) {
        if h[w] == UpVal(Open(t, level)) { SearchFinds(s, t, level, i, w); }
      }
      SplitsAt(h, t, i, level);
    }
  }

  lemma SplitsAt(h: Heap, t: Ref, i: nat, level: nat)
    requires t in h && h[t].Thread? && i <= |h[t].open|
    requires forall j :: 0 <= j < |h[t].open| ==>
      h[t].open[j] in h && h[h[t].open[j]].UpVal? && h[h[t].open[j]].cell.Open?
    requires forall j :: 0 <= j < i ==> h[h[t].open[j]].cell.slot > level
    requires i < |h[t].open| ==> h[h[t].open[i]].cell.slot < level
    requires forall j :: i < j < |h[t].open| ==> h[h[t].open[j]].cell.slot < h[h[t].open[i]].cell.slot
    ensures Splits(h, t, i, level)
  {
  }

  lemma LowerAfter(s: State, t: Ref, i: nat)
    requires Inv(s) && t in s.heap && s.heap[t].Thread? && i <= |s.heap[t].open|
    ensures forall j :: 0 <= j < |s.heap[t].open| ==>
      s.heap[t].open[j] in s.heap && s.heap[s.heap[t].open[j]].UpVal? && s.heap[s.heap[t].open[j]].cell.Open?
    ensures forall j :: i < j < |s.heap[t].open| ==>
      s.heap[s.heap[t].open[j]].cell.slot < s.heap[s.heap[t].open[i]].cell.slot
  {
    hide Safe, PhaseOk, StringLists;
    assert ThreadOk(s.heap, t);
  }

  lemma SearchFinds(s: State, t: Ref, level: nat, i: nat, w: Ref)
    requires Inv(s) && t in s.heap && s.heap[t].Thread? && i <= |s.heap[t].open|
    requires forall j :: 0 <= j < |s.heap[t].open| ==>
      s.heap[t].open[j] in s.heap && s.heap[s.heap[t].open[j]].UpVal? && s.heap[s.heap[t].open[j]].cell.Open?
    requires forall j :: 0 <= j < i ==> s.heap[s.heap[t].open[j]].cell.slot > level
    requires i < |s.heap[t].open| ==> s.heap[s.heap[t].open[i]].cell.slot <= level
    requires w in s.heap && s.heap[w] == UpVal(Open(t, level))
    ensures i < |s.heap[t].open| && w == s.heap[t].open[i]
  {
    var h, open := s.heap, s.heap[t].open;
    hide Safe, PhaseOk, StringLists;
    LowerAfter(s, t, i);
    assert UpvalOk(h, w);
    hide Placed;
    var j :| 0 <= j < |open| && open[j] == w;
    assert j >= i;
  }

  lemma SlotIsLive(s: State, t: Ref, u: Ref)
    requires Inv(s) && t in s.heap && s.heap[t].Thread? && !IsDead(s, t) && u in s.heap && IsOpen(s.heap[u])
      && s.heap[u].cell.th == t
    ensures forall k :: Holds(s.heap, u, k) ==> k in LiveSet(s)
  {
    forall k | Holds(s.heap, u, k) ensures k in LiveSet(s) {
      assert Edge(s.heap, true, t, k);
    }
  }
}
