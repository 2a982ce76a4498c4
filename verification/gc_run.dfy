/** Programs that mix mutator instructions with collector steps in any order. */
module GcRun {
  import opened GcHeap
  import opened GcState
  import opened GcInv
  import opened GcPaths
  import opened GcOps
  import opened GcSweep
  import opened Gc
  import opened GcMutator
  import opened GcReach
  import opened GcUnseen
  import opened GcFull

  // ---------------------------------------------------------------- operands

  function Read(g: GlobalState, p: Path): Value
    reads g
  {
    Find(g.heap, g.running, g.registry, g.types, p)
  }

  lemma ReadAccessible(g: GlobalState, p: Path)
    ensures AccessibleValue(g.View(), Read(g, p))
  {
    FindAccessible(g.View(), p);
  }

  /** What a path names is allocated and alive. */
  lemma ReadLive(g: GlobalState, p: Path)
    requires Inv(g.View())
    ensures AccessibleValue(g.View(), Read(g, p))
    ensures var v := Read(g, p); v.Obj? ==>
      v.r in g.heap && !IsDead(g.View(), v.r) && Accessible(g.View(), v.r) && v.r in LiveSet(g.View())
  {
    hide Inv, Accessible, LiveSet;
    ReadAccessible(g, p);
    AccessibleLive(g.View(), Read(g, p));
    if Read(g, p).Obj? {
      AccessibleIsLive(g.View(), Read(g, p).r);
    }
  }

  method ReadAll(g: GlobalState, ps: seq<Path>) returns (vs: seq<Value>)
    requires Inv(g.View())
    ensures |vs| == |ps| && forall i :: 0 <= i < |ps| ==> vs[i] == Read(g, ps[i])
    ensures forall v :: v in vs && v.Obj? ==> v.r in LiveSet(g.View())
  {
    hide Inv, LiveSet, AccessibleValue, Read;
    vs := [];
    for n := 0 to |ps|
      invariant |vs| == n && forall i :: 0 <= i < n ==> vs[i] == Read(g, ps[i])
      invariant forall v :: v in vs && v.Obj? ==> v.r in LiveSet(g.View())
    {
      ReadLive(g, ps[n]);
      vs := vs + [Read(g, ps[n])];
    }
  }

  // ------------------------------------------------------------------ helpers

  predicate HasSlot(g: GlobalState, i: nat)
    reads g
  {
    g.running in g.heap && g.heap[g.running].Thread? && i < |g.heap[g.running].stack|
  }

  lemma RunningThread(s: State)
    requires Inv(s)
    ensures s.running in s.heap && s.heap[s.running].Thread? && !IsDead(s, s.running)
  {
    assert s.running in LiveSet(s);
  }

  lemma WholeHeap(s: State)
    requires Inv(s)
    ensures s.phase.Pause? || s.phase.Propagate? ==> IsClosed(s.heap, false, s.heap.Keys) && Roots(s) <= s.heap.Keys
    ensures forall r :: NonWhite(s.mark, r) ==> r in s.heap
  {
    if s.phase.Pause? || s.phase.Propagate? {
      HeapIsClosed(s);
    }
  }

  // -------------------------------------------------------------- allocation

  lemma EmptyTable(h: Heap, r: Ref)
    requires r in h && h[r].Table? && h[r].mt.Nil? && forall e :: e in h[r].entries ==> e.val.Nil?
    ensures forall k :: !Holds(h, r, k)
  {
  }

  lemma HoldsOnly(h: Heap, r: Ref, o: Object, live: set<Ref>)
    requires (o.Closure? || o.Proto?) && forall v :: v in o.held && v.Obj? ==> v.r in live
    ensures forall k :: Holds(h[r := o], r, k) ==> k in live
  {
  }

  lemma EmptyThread(h: Heap, r: Ref, o: Object, live: set<Ref>)
    requires o.Thread? && (forall v :: v in o.stack ==> v.Nil?) && (o.gt.Obj? ==> o.gt.r in live)
    ensures forall k :: Holds(h[r := o], r, k) ==> k in live
  {
  }

  method MakeTable(g: GlobalState, dst: nat, r: Ref, size: nat)
    requires Inv(g.View())
    modifies g`heap, g`mark, g`rootgc, g`strt, g`sweepgc, g`gray, g`grayagain, g`uvhead
    ensures Inv(g.View()) && Effect(old(g.View()), Op.NewTable(dst, r, size), g.View())
  {
    hide Inv, Holds, LiveSet;
    RunningThread(g.View());
    if HasSlot(g, dst) && r !in g.heap {
      var o := Table(Nil, false, false, Empty(size));
      EmptyTable(g.heap[r := o], r);
      New(g, r, o, dst);
    }
  }

  method MakeUserdata(g: GlobalState, dst: nat, r: Ref, env: Path)
    requires Inv(g.View())
    modifies g`heap, g`mark, g`rootgc, g`strt, g`sweepgc, g`gray, g`grayagain, g`uvhead
    ensures Inv(g.View()) && Effect(old(g.View()), NewUserdata(dst, r, env), g.View())
  {
    hide Inv, AccessibleValue, Accessible, Holds, LiveSet, Find;
    RunningThread(g.View());
    if HasSlot(g, dst) && r !in g.heap {
      NilAccessible(g.View());
      ReadLive(g, env);
      NewUdata(g, r, Nil, Read(g, env), dst);
    }
  }

  lemma NilAccessible(s: State)
    ensures AccessibleValue(s, Nil)
  {
  }

  method MakeThread(g: GlobalState, dst: nat, r: Ref, size: nat, top: nat)
    requires Inv(g.View())
    modifies g`heap, g`mark, g`rootgc, g`strt, g`sweepgc, g`gray, g`grayagain, g`uvhead
    ensures Inv(g.View()) && Effect(old(g.View()), Op.NewThread(dst, r, size, top), g.View())
  {
    hide Inv, AccessibleValue, Accessible, Holds, LiveSet, Find;
    RunningThread(g.View());
    if HasSlot(g, dst) && r !in g.heap {
      var o := Thread(g.heap[g.running].gt, Nils(size), if top < size then top else size, []);
      ReadLive(g, In(Running, Env));
      RunningEnv(g);
      EmptyThread(g.heap, r, o, LiveSet(g.View()));
      New(g, r, o, dst);
    }
  }

  method MakeClosure(g: GlobalState, dst: nat, r: Ref, held: seq<Path>)
    requires Inv(g.View())
    modifies g`heap, g`mark, g`rootgc, g`strt, g`sweepgc, g`gray, g`grayagain, g`uvhead
    ensures Inv(g.View()) && Effect(old(g.View()), Op.NewClosure(dst, r, held), g.View())
  {
    hide Inv, Holds, LiveSet, Find;
    RunningThread(g.View());
    if HasSlot(g, dst) && r !in g.heap {
      var vs := ReadAll(g, held);
      assert vs == ReadEach(g.View(), held);
      HoldsOnly(g.heap, r, Closure(vs), LiveSet(g.View()));
      New(g, r, Closure(vs), dst);
    }
  }

  method MakeProto(g: GlobalState, dst: nat, r: Ref, held: seq<Path>)
    requires Inv(g.View())
    modifies g`heap, g`mark, g`rootgc, g`strt, g`sweepgc, g`gray, g`grayagain, g`uvhead
    ensures Inv(g.View()) && Effect(old(g.View()), Op.NewProto(dst, r, held), g.View())
  {
    hide Inv, Holds, LiveSet, Find;
    RunningThread(g.View());
    if HasSlot(g, dst) && r !in g.heap {
      var vs := ReadAll(g, held);
      assert vs == ReadEach(g.View(), held);
      HoldsOnly(g.heap, r, Proto(vs), LiveSet(g.View()));
      New(g, r, Proto(vs), dst);
    }
  }

  lemma RunningEnv(g: GlobalState)
    requires g.running in g.heap && g.heap[g.running].Thread?
    ensures Read(g, In(Running, Env)) == g.heap[g.running].gt
  {
    assert Read(g, Running) == Obj(g.running);
  }

  method MakeString(g: GlobalState, dst: nat, r: Ref, b: nat)
    requires Inv(g.View())
    modifies g`heap, g`mark, g`rootgc, g`strt, g`sweepgc, g`gray, g`grayagain, g`uvhead
    ensures Inv(g.View()) && Effect(old(g.View()), NewString(dst, r, b), g.View())
  {
    hide Inv;
    RunningThread(g.View());
    if HasSlot(g, dst) && b < |g.strt| && (r in g.heap ==> g.heap[r].String?) {
      GetString(g, r, b, dst);
    }
  }

  method KeepString(g: GlobalState, str: Path)
    requires Inv(g.View())
    modifies g`fixed
    ensures Inv(g.View()) && Effect(old(g.View()), Op.FixString(str), g.View())
  {
    hide Inv, AccessibleValue, Accessible, LiveSet, Find;
    ReadLive(g, str);
    var v := Read(g, str);
    if v.Obj? && g.heap[v.r].String? {
      GcMutator.FixString(g, v.r);
    }
  }

  // ------------------------------------------------------------------ stores

  /** Store into the node that has the key already, or into an empty node that takes it. */
  method PutField(g: GlobalState, t: Value, i: nat, k: Value, v: Value)
    requires Inv(g.View()) && LiveValue(g.View(), t) && LiveValue(g.View(), k) && LiveValue(g.View(), v)
    modifies g`heap, g`mark, g`rootgc, g`strt, g`sweepgc, g`gray, g`grayagain, g`uvhead
    ensures Inv(g.View()) && g.heap == FieldStored(old(g.heap), t, i, k, v)
  {
    hide Inv, LiveSet;
    if t.Obj? && g.heap[t.r].Table? && Fits(g.heap[t.r].entries, i, k) {
      if g.heap[t.r].entries[i].key != Live(k) {
        NewKey(g, t.r, i, k);
      }
      FieldIn(old(g.heap), g.heap, t.r, i, k, v);
      SetEntry(g, t.r, i, v);
    }
  }

  method StoreField(g: GlobalState, tab: Path, i: nat, key: Path, src: Path)
    requires Inv(g.View())
    modifies g`heap, g`mark, g`rootgc, g`strt, g`sweepgc, g`gray, g`grayagain, g`uvhead
    ensures Inv(g.View()) && Effect(old(g.View()), SetField(tab, i, key, src), g.View())
  {
    hide Inv, AccessibleValue, Accessible, LiveSet, Find, FieldStored;
    ReadLive(g, tab);
    ReadLive(g, key);
    ReadLive(g, src);
    PutField(g, Read(g, tab), i, Read(g, key), Read(g, src));
  }

  /** The key first and then the value. */
  lemma FieldIn(h: Heap, h1: Heap, t: Ref, i: nat, k: Value, v: Value)
    requires t in h && h[t].Table? && Fits(h[t].entries, i, k)
    requires h1 == if h[t].entries[i].key == Live(k) then h else
      h[t := h[t].(entries := h[t].entries[i := Entry(Live(k), Nil)])]
    ensures h1[t].entries[i].key == Live(k)
    ensures h1[t := h1[t].(entries := h1[t].entries[i := Entry(Live(k), v)])] == FieldStored(h, Obj(t), i, k, v)
  {
    var es := h[t].entries;
    assert es[i := Entry(Live(k), Nil)][i := Entry(Live(k), v)] == es[i := Entry(Live(k), v)];
  }

  /** The used entries of a table in a new order, among empty nodes. */
  method Relayout(g: GlobalState, tab: Path, layout: seq<nat>)
    requires Inv(g.View())
    modifies g`heap, g`mark, g`rootgc, g`strt, g`sweepgc, g`gray, g`grayagain, g`uvhead
    ensures Inv(g.View()) && Effect(old(g.View()), Resize(tab, layout), g.View())
  {
    hide Inv, AccessibleValue, Accessible, LiveSet, Find, IsLayout;
    var t := Read(g, tab);
    ReadLive(g, tab);
    if t.Obj? && g.heap[t.r].Table? && IsLayout(g.heap[t.r].entries, layout) {
      Rehash(g, t.r, Laid(g.heap[t.r].entries, layout));
    }
  }

  /** A store to a userdata or to a closed upvalue brings in only the value stored. */
  lemma BringsIn(h: Heap, r: Ref, o: Object, v: Value)
    requires r in h
    requires match h[r]
      case Udata(m, e) => o == Udata(v, e) || o == Udata(m, v)
      case UpVal(c) => c.Closed? && o == UpVal(Closed(v))
      case _ => false
    ensures SameShape(h, h[r], o) && forall k :: Holds(h[r := o], r, k) ==> Holds(h, r, k) || v == Obj(k)
  {
  }

  method StoreMetatable(g: GlobalState, obj: Path, src: Path)
    requires Inv(g.View())
    modifies g`heap, g`mark, g`rootgc, g`strt, g`sweepgc, g`gray, g`grayagain, g`uvhead
    ensures Inv(g.View()) && Effect(old(g.View()), SetMetatable(obj, src), g.View())
  {
    hide Inv, AccessibleValue, Accessible, LiveSet, Find, SameShape, Holds;
    var o, v := Read(g, obj), Read(g, src);
    ReadLive(g, obj);
    ReadLive(g, src);
    if o.Obj? && g.heap[o.r].Table? {
      GcMutator.SetMetatable(g, o.r, v, g.heap[o.r].weakKey, g.heap[o.r].weakVal);
    } else if o.Obj? && g.heap[o.r].Udata? {
      BringsIn(g.heap, o.r, Udata(v, g.heap[o.r].env), v);
      StoreForward(g, o.r, Udata(v, g.heap[o.r].env), v);
    }
  }

  method StoreMode(g: GlobalState, tab: Path, weakKey: bool, weakVal: bool)
    requires Inv(g.View())
    modifies g`heap, g`mark, g`rootgc, g`strt, g`sweepgc, g`gray, g`grayagain, g`uvhead
    ensures Inv(g.View()) && Effect(old(g.View()), SetMode(tab, weakKey, weakVal), g.View())
  {
    hide Inv, AccessibleValue, Accessible, LiveSet;
    ReadLive(g, tab);
    ReadLive(g, In(tab, Part.Metatable));
    var t := Read(g, tab);
    if t.Obj? && g.heap[t.r].Table? {
      GcMutator.SetMetatable(g, t.r, g.heap[t.r].mt, weakKey, weakVal);
    }
  }

  method StoreEnv(g: GlobalState, obj: Path, src: Path)
    requires Inv(g.View())
    modifies g`heap, g`mark, g`rootgc, g`strt, g`sweepgc, g`gray, g`grayagain, g`uvhead
    ensures Inv(g.View()) && Effect(old(g.View()), SetEnv(obj, src), g.View())
  {
    hide Inv, AccessibleValue, Accessible, LiveSet, Find, Effect, SameShape, Holds;
    var o, v := Read(g, obj), Read(g, src);
    ReadLive(g, obj);
    ReadLive(g, src);
    if o.Obj? && g.heap[o.r].Thread? {
      SetGlobals(g, o.r, v);
    } else if o.Obj? && g.heap[o.r].Udata? {
      BringsIn(g.heap, o.r, Udata(g.heap[o.r].mt, v), v);
      StoreForward(g, o.r, Udata(g.heap[o.r].mt, v), v);
    }
    EnvDone(old(g.View()), obj, src, g.View());
  }

  lemma EnvDone(s: State, obj: Path, src: Path, s': State)
    requires HeapIs(s, s', Stored(s.heap, ReadIn(s, obj), Env, ReadIn(s, src)))
    ensures Effect(s, SetEnv(obj, src), s')
  {
  }

  /** Put v at place i of what a closure or prototype holds, or after the last place. */
  method PutHeld(g: GlobalState, r: Ref, i: nat, v: Value)
    requires Inv(g.View()) && r in g.heap && !IsDead(g.View(), r) && (v.Obj? ==> v.r in LiveSet(g.View()))
    modifies g`heap, g`mark, g`rootgc, g`strt, g`sweepgc, g`gray, g`grayagain, g`uvhead
    ensures Inv(g.View()) && g.heap == Stored(old(g.heap), Obj(r), HeldAt(i), v)
  {
    hide Inv, LiveSet;
    if (g.heap[r].Closure? || g.heap[r].Proto?) && i <= |g.heap[r].held| {
      var held := g.heap[r].held;
      var held' := Put(held, i, v);
      StoreForward(g, r, if g.heap[r].Closure? then Closure(held') else Proto(held'), v);
    }
  }

  method StoreHeld(g: GlobalState, obj: Path, i: nat, src: Path)
    requires Inv(g.View())
    modifies g`heap, g`mark, g`rootgc, g`strt, g`sweepgc, g`gray, g`grayagain, g`uvhead
    ensures Inv(g.View()) && Effect(old(g.View()), SetHeld(obj, i, src), g.View())
  {
    hide Inv, AccessibleValue, Accessible, LiveSet, Find;
    ReadLive(g, obj);
    ReadLive(g, src);
    if Read(g, obj).Obj? {
      PutHeld(g, Read(g, obj).r, i, Read(g, src));
    }
  }

  method CaptureSlot(g: GlobalState, cl: Path, level: nat, u: Ref)
    requires Inv(g.View())
    modifies g`heap, g`mark, g`rootgc, g`strt, g`sweepgc, g`gray, g`grayagain, g`uvhead
    ensures Inv(g.View()) && Effect(old(g.View()), Capture(cl, level, u), g.View())
  {
    hide Inv, AccessibleValue, Accessible, LiveSet, Find, Effect, FoundUpval, WithHeld;
    RunningThread(g.View());
    if level < g.heap[g.running].top && u !in g.heap {
      ghost var s := g.View();
      var c := Read(g, cl);
      ReadLive(g, cl);
      var w := FindUpval(g, g.running, level, u);
      ghost var h1 := g.heap;
      UpvalFound(s.heap, h1, s.running, level, u, w);
      AddHeld(g, c, w);
      CaptureDone(s, h1, g.View(), cl, level, u, w);
    } else {
      NoCapture(g.View(), cl, level, u);
    }
  }

  /** Add w to what a closure holds. */
  method AddHeld(g: GlobalState, c: Value, w: Ref)
    requires Inv(g.View()) && w in LiveSet(g.View()) && LiveValue(g.View(), c)
    modifies g`heap, g`mark, g`rootgc, g`strt, g`sweepgc, g`gray, g`grayagain, g`uvhead
    ensures Inv(g.View()) && g.heap == WithHeld(old(g.heap), c, w)
  {
    hide Inv, LiveSet;
    if c.Obj? && g.heap[c.r].Closure? {
      LiveIs(g.View(), c.r);
      PutHeld(g, c.r, |g.heap[c.r].held|, Obj(w));
    }
  }

  lemma UpvalFound(h: Heap, h1: Heap, t: Ref, level: nat, u: Ref, w: Ref)
    requires t in h && h[t].Thread? && u !in h && w in h1 && h1[w] == UpVal(Open(t, level))
    requires forall x: Ref :: x in h && h[x] == UpVal(Open(t, level)) ==> x == w
    requires w in h ==> h1 == h
    requires w !in h ==>
      && w == u && t in h1 && h1[t].Thread?
      && h1 == h[u := UpVal(Open(t, level))][t := h[t].(open := h1[t].open)]
    ensures FoundUpval(h, h1, t, level, u, w) && h.Keys <= h1.Keys
  {
  }

  lemma CaptureDone(s: State, h1: Heap, s': State, cl: Path, level: nat, u: Ref, w: Ref)
    requires s.running in s.heap && s.heap[s.running].Thread? && level < s.heap[s.running].top && u !in s.heap
    requires FoundUpval(s.heap, h1, s.running, level, u, w)
    requires HeapIs(s, s', WithHeld(h1, ReadIn(s, cl), w))
    ensures Effect(s, Capture(cl, level, u), s')
  {
    hide FoundUpval, WithHeld;
  }

  lemma NoCapture(s: State, cl: Path, level: nat, u: Ref)
    requires s.running in s.heap && s.heap[s.running].Thread? && (level >= s.heap[s.running].top || u in s.heap)
    ensures Effect(s, Capture(cl, level, u), s)
  {
  }

  lemma OpenReadsSlot(s: State, u: Ref)
    requires Inv(s) && u in s.heap && IsOpen(s.heap[u])
    ensures var t := s.heap[u].cell.th; t in s.heap && s.heap[t].Thread? && s.heap[u].cell.slot < |s.heap[t].stack|
  {
    hide Safe, PhaseOk;
    ThreadsBelowTop(s.heap);
  }

  /** An assignment to a captured variable writes the stack while the upvalue is open, with no
      barrier, and the upvalue itself once it is closed. */
  method StoreUpval(g: GlobalState, up: Path, src: Path)
    requires Inv(g.View())
    modifies g`heap, g`mark, g`rootgc, g`strt, g`sweepgc, g`gray, g`grayagain, g`uvhead
    ensures Inv(g.View()) && Effect(old(g.View()), SetUpval(up, src), g.View())
  {
    hide Inv, AccessibleValue, Accessible, LiveSet, Find, SameShape, Holds;
    var u, v := Read(g, up), Read(g, src);
    ReadLive(g, up);
    ReadLive(g, src);
    if u.Obj? && g.heap[u.r].UpVal? {
      match g.heap[u.r].cell
      case Open(t, i) =>
        OpenReadsSlot(g.View(), u.r);
        SetSlot(g, t, i, v);
      case Closed(_) =>
        BringsIn(g.heap, u.r, UpVal(Closed(v)), v);
        StoreForward(g, u.r, UpVal(Closed(v)), v);
    }
  }

  // ------------------------------------------------------------------- stacks

  method CloseUpvals(g: GlobalState, level: nat)
    requires Inv(g.View())
    modifies g`heap, g`mark, g`rootgc, g`strt, g`sweepgc, g`gray, g`grayagain, g`uvhead
    ensures Inv(g.View()) && Effect(old(g.View()), CloseFrom(level), g.View())
    ensures g.running in g.heap && g.heap[g.running].Thread?
      && forall u :: u in g.heap[g.running].open ==> u in g.heap && IsOpen(g.heap[u]) && g.heap[u].cell.slot < level
    ensures ClosedFrom(old(g.View()), g.View(), g.running, level)
    ensures g.running in old(g.heap) && g.heap[g.running] == old(g.heap)[g.running].(open := g.heap[g.running].open)
  {
    hide Inv, OnlyClosed, ClosedFrom;
    RunningThread(g.View());
    ghost var s := g.View();
    g.Close(g.running, level);
    NoneLeft(g.View(), g.running, level);
    CloseIs(s, g.View(), g.running, level);
  }

  lemma CloseIs(s: State, s': State, t: Ref, level: nat)
    requires CloseRel(s, s') && OnlyClosed(s.heap, s'.heap, t, level)
    requires forall u :: u in s'.heap ==> !ReadsFrom(s'.heap[u], t, level)
    ensures ClosedFrom(s, s', t, level)
  {
  }

  lemma NoneLeft(s: State, t: Ref, level: nat)
    requires Inv(s) && t in s.heap && s.heap[t].Thread?
    requires forall u :: u in s.heap[t].open ==> u in s.heap && IsOpen(s.heap[u]) && s.heap[u].cell.slot < level
    ensures forall u :: u in s.heap ==> !ReadsFrom(s.heap[u], t, level)
  {
    hide Safe, PhaseOk, StringLists;
    forall u | u in s.heap && IsOpen(s.heap[u]) && s.heap[u].cell.th == t ensures s.heap[u].cell.slot < level {
      assert UpvalOk(s.heap, u);
    }
  }

  lemma NoCut(s: State, top: nat)
    requires s.running in s.heap && s.heap[s.running].Thread? && top > |s.heap[s.running].stack|
    ensures Effect(s, MoveTop(top), s)
  {
  }

  method CutStack(g: GlobalState, top: nat)
    requires Inv(g.View())
    modifies g`heap, g`mark, g`rootgc, g`strt, g`sweepgc, g`gray, g`grayagain, g`uvhead
    ensures Inv(g.View()) && Effect(old(g.View()), MoveTop(top), g.View())
  {
    hide Inv, ClosedFrom, Effect;
    RunningThread(g.View());
    if top <= |g.heap[g.running].stack| {
      ghost var s := g.View();
      CloseUpvals(g, top);
      ghost var s1 := g.View();
      SetTop(g, g.running, top);
      TopIs(s, s1, g.View(), top);
    } else {
      NoCut(g.View(), top);
    }
  }

  lemma TopIs(s: State, s1: State, s': State, top: nat)
    requires s.running in s.heap && s.heap[s.running].Thread? && top <= |s.heap[s.running].stack|
    requires ClosedFrom(s, s1, s.running, top) && HeapIs(s, s1, s1.heap)
    requires s.running in s1.heap && s1.heap[s.running].Thread?
    requires s' == s1.(heap := s1.heap[s.running := s1.heap[s.running].(top := top)])
    ensures Effect(s, MoveTop(top), s')
  {
    hide ClosedFrom;
  }

  method SizeStack(g: GlobalState, size: nat)
    requires Inv(g.View())
    modifies g`heap, g`mark, g`rootgc, g`strt, g`sweepgc, g`gray, g`grayagain, g`uvhead
    ensures Inv(g.View()) && Effect(old(g.View()), GrowStack(size), g.View())
  {
    hide Inv;
    RunningThread(g.View());
    if g.heap[g.running].top <= size {
      ghost var stack := g.heap[g.running].stack;
      ResizeStack(g, g.running, size);
      assert g.heap[g.running].stack == Resized(stack, size);
    }
  }

  /** Write to the stack of the running thread or of another one. */
  method PutSlot(g: GlobalState, th: Path, i: nat, src: Path)
    requires Inv(g.View())
    modifies g`heap, g`mark, g`rootgc, g`strt, g`sweepgc, g`gray, g`grayagain, g`uvhead
    ensures Inv(g.View()) && Effect(old(g.View()), Push(th, i, src), g.View())
  {
    hide Inv, AccessibleValue, Accessible, LiveSet, Find;
    var t := Read(g, th);
    ReadLive(g, th);
    ReadLive(g, src);
    if t.Obj? && g.heap[t.r].Thread? && i < |g.heap[t.r].stack| {
      SetSlot(g, t.r, i, Read(g, src));
    }
  }

  method LoadSlot(g: GlobalState, dst: nat, src: Path)
    requires Inv(g.View())
    modifies g`heap, g`mark, g`rootgc, g`strt, g`sweepgc, g`gray, g`grayagain, g`uvhead
    ensures Inv(g.View()) && Effect(old(g.View()), Load(dst, src), g.View())
  {
    hide Inv, AccessibleValue, Accessible, LiveSet, Find;
    ReadLive(g, src);
    if HasSlot(g, dst) {
      SetSlot(g, g.running, dst, Read(g, src));
    }
  }

  lemma TypesAccessible(g: GlobalState)
    ensures forall v :: v in g.types ==> AccessibleValue(g.View(), v)
  {
    hide Accessible;
    forall v | v in g.types ensures AccessibleValue(g.View(), v) {
      var k :| 0 <= k < |g.types| && g.types[k] == v;
      ReadAccessible(g, BasicType(k));
    }
  }

  method SwitchTo(g: GlobalState, th: Path)
    requires Inv(g.View())
    modifies g`types, g`running
    ensures Inv(g.View()) && Effect(old(g.View()), Resume(th), g.View())
  {
    hide Inv, AccessibleValue, Accessible, LiveSet, Find;
    var t := Read(g, th);
    ReadLive(g, th);
    TypesAccessible(g);
    if t.Obj? && g.heap[t.r].Thread? {
      SetRoots(g, g.types, t.r);
    }
  }

  method StoreBasicType(g: GlobalState, k: nat, src: Path)
    requires Inv(g.View())
    modifies g`types, g`running
    ensures Inv(g.View()) && Effect(old(g.View()), SetBasicType(k, src), g.View())
  {
    hide Inv, AccessibleValue, Accessible, LiveSet;
    ReadLive(g, src);
    ReadLive(g, Running);
    RunningThread(g.View());
    TypesAccessible(g);
    if k < |g.types| {
      var v := Read(g, src);
      SetRoots(g, g.types[k := v], g.running);
    }
  }

  // --------------------------------------------------------------------- runs

  /** A piece of collector work keeps the invariant and goes unseen. */
  method Work(g: GlobalState, all: bool)
    requires Inv(g.View())
    modifies g
    ensures Inv(g.View()) && Unseen(old(g.View()), g.View())
  {
    hide Inv, LiveSet, Unseen;
    ghost var s := g.View();
    if all {
      FullGc(g);
    } else {
      WholeHeap(s);
      g.SingleStep(g.heap.Keys);
      StepUnseen(s, g.View(), s.heap.Keys);
    }
  }

  method Execute(g: GlobalState, op: Op)
    requires Inv(g.View())
    modifies g
    ensures Inv(g.View()) && Effect(old(g.View()), op, g.View())
  {
    hide Inv, Unseen, HeapIs;
    match op
    case Collect => Work(g, false);
    case CollectAll => Work(g, true);
    case _ => Mutate(g, op);
  }

  method Mutate(g: GlobalState, op: Op)
    requires Inv(g.View()) && !op.Collect? && !op.CollectAll?
    modifies g
    ensures Inv(g.View()) && Effect(old(g.View()), op, g.View())
  {
    hide Inv, Effect;
    match op
    case Load(dst, src) => LoadSlot(g, dst, src);
    case NewString(dst, r, b) => MakeString(g, dst, r, b);
    case FixString(str) => KeepString(g, str);
    case SetField(tab, i, key, src) => StoreField(g, tab, i, key, src);
    case Resize(tab, layout) => Relayout(g, tab, layout);
    case SetMetatable(obj, src) => StoreMetatable(g, obj, src);
    case SetMode(tab, weakKey, weakVal) => StoreMode(g, tab, weakKey, weakVal);
    case SetEnv(obj, src) => StoreEnv(g, obj, src);
    case SetHeld(obj, i, src) => StoreHeld(g, obj, i, src);
    case Capture(cl, level, u) => CaptureSlot(g, cl, level, u);
    case SetUpval(up, src) => StoreUpval(g, up, src);
    case CloseFrom(level) => CloseUpvals(g, level);
    case MoveTop(top) => CutStack(g, top);
    case GrowStack(size) => SizeStack(g, size);
    case Push(th, i, src) => PutSlot(g, th, i, src);
    case Resume(th) => SwitchTo(g, th);
    case SetBasicType(k, src) => StoreBasicType(g, k, src);
    case NewTable(dst, r, size) => MakeTable(g, dst, r, size);
    case NewUserdata(dst, r, env) => MakeUserdata(g, dst, r, env);
    case NewThread(dst, r, size, top) => MakeThread(g, dst, r, size, top);
    case NewClosure(dst, r, held) => MakeClosure(g, dst, r, held);
    case NewProto(dst, r, held) => MakeProto(g, dst, r, held);
  }

  /** In every program, however collector steps and full collections are mixed with mutator
      instructions, whatever the mutator can name is allocated and not doomed.
      Since a prefix of a program is a program, this holds at every moment. */
  method Run(g: GlobalState, program: seq<Op>)
    requires Inv(g.View())
    modifies g
    ensures Inv(g.View())
    ensures forall r :: Accessible(g.View(), r) ==> r in g.heap && !IsDead(g.View(), r)
    ensures forall p :: Read(g, p).Obj? ==> Read(g, p).r in g.heap && !IsDead(g.View(), Read(g, p).r)
  {
    hide Inv, Accessible, Read;
    for n := 0 to |program|
      invariant Inv(g.View())
    {
      Execute(g, program[n]);
    }
    forall r | Accessible(g.View(), r) ensures r in g.heap && !IsDead(g.View(), r) {
      AccessibleIsLive(g.View(), r);
    }
    forall p | Read(g, p).Obj? ensures Read(g, p).r in g.heap && !IsDead(g.View(), Read(g, p).r) {
      ReadLive(g, p);
    }
  }
}
