/** How the mutator names values: by the way to them from the roots. */
module GcPaths {
  import opened GcHeap
  import opened GcState
  import opened GcInv

  /** A part of an object that the mutator can read. */
  datatype Part =
    | Metatable
    | Env                // of a userdata; the table of globals of a thread
    | KeyAt(i: nat)
    | ValueAt(i: nat)
    | HeldAt(i: nat)     // an upvalue, constant or environment of a closure or prototype
    | Content            // what an upvalue reads
    | SlotAt(i: nat)     // of the stack of a thread

  /** How the mutator names a value: a root, or a part of an object it can name. */
  datatype Path = Nothing | Number | Running | Registry | BasicType(k: nat) | In(of: Path, part: Part)

  function PartOf(h: Heap, o: Object, part: Part): Value {
    match (o, part)
    case (Table(m, _, _, _), Metatable) => m
    case (Table(_, _, _, es), KeyAt(i)) => if i < |es| && !es[i].val.Nil? && es[i].key.Live? then es[i].key.v else Nil
    case (Table(_, _, _, es), ValueAt(i)) => if i < |es| then es[i].val else Nil
    case (Udata(m, _), Metatable) => m
    case (Udata(_, e), Env) => e
    case (Closure(held), HeldAt(i)) => if i < |held| then held[i] else Nil
    case (Proto(held), HeldAt(i)) => if i < |held| then held[i] else Nil
    case (UpVal(c), Content) => UpValue(h, c)
    case (Thread(gt, _, _, _), Env) => gt
    case (Thread(_, stack, _, _), SlotAt(i)) => if i < |stack| then stack[i] else Nil
    case _ => Nil
  }

  /** The value a path names; nil if it leads nowhere. */
  function Find(h: Heap, running: Ref, registry: Ref, types: seq<Value>, p: Path): Value {
    match p
    case Nothing => Nil
    case Number => Prim
    case Running => Obj(running)
    case Registry => Obj(registry)
    case BasicType(k) => if k < |types| then types[k] else Nil
    case In(q, part) =>
      var v := Find(h, running, registry, types, q);
      if v.Obj? && v.r in h then PartOf(h, h[v.r], part) else Nil
  }

  ghost function ReadIn(s: State, p: Path): Value { Find(s.heap, s.running, s.registry, s.types, p) }

  lemma PartHeld(h: Heap, r: Ref, part: Part)
    requires r in h
    ensures var v := PartOf(h, h[r], part); v.Obj? ==> Holds(h, r, v.r)
  {
    var v := PartOf(h, h[r], part);
    if v.Obj? && h[r].Table? && !part.Metatable? {
      assert h[r].entries[part.i] in h[r].entries && EntryHolds(h[r].entries[part.i], v.r);
    }
  }

  /** A part that does not keep alive what it refers to: a key or value of a table whose metatable
      says so, or a stack slot above the top. */
  predicate IsWeakPart(h: Heap, o: Object, part: Part) {
    match o
    case Table(m, _, _, _) =>
      && m.Obj? && m.r in h && h[m.r].Table?
      && ((part.KeyAt? && h[m.r].weakKey) || (part.ValueAt? && h[m.r].weakVal))
    case Thread(_, _, top, _) => part.SlotAt? && part.i >= top
    case _ => false
  }

  /** An object keeps alive what can be read from its parts, but for the weak ones. */
  lemma KeepsIs(h: Heap, r: Ref, k: Ref)
    requires r in h
    ensures Keeps(h, r, k) <==> exists part :: PartOf(h, h[r], part) == Obj(k) && !IsWeakPart(h, h[r], part)
  {
    match h[r]
    case String =>
    case Udata(m, e) =>
      assert PartOf(h, h[r], Metatable) == m && PartOf(h, h[r], Env) == e;
    case UpVal(c) =>
      assert PartOf(h, h[r], Content) == UpValue(h, c);
    case Table(_, _, _, _) => TableKeeps(h, r, k);
    case Thread(gt, stack, top, _) =>
      assert PartOf(h, h[r], Env) == gt;
      assert forall i: nat :: i < |stack| ==> PartOf(h, h[r], SlotAt(i)) == stack[i];
    case _ =>
      var held := h[r].held;
      assert forall i: nat :: i < |held| ==> PartOf(h, h[r], HeldAt(i)) == held[i];
  }

  lemma TableKeeps(h: Heap, r: Ref, k: Ref)
    requires r in h && h[r].Table?
    ensures Keeps(h, r, k) <==> exists part :: PartOf(h, h[r], part) == Obj(k) && !IsWeakPart(h, h[r], part)
  {
    var m, es := h[r].mt, h[r].entries;
    var wk, wv := WeakKeys(h, m), WeakVals(h, m);
    assert PartOf(h, h[r], Metatable) == m;
    if Keeps(h, r, k) && m != Obj(k) {
      var e :| e in es && EntryStrong(e, wk, wv, k);
      var i: nat :| i < |es| && es[i] == e;
      if !wk && e.key == Live(Obj(k)) {
        assert PartOf(h, h[r], KeyAt(i)) == Obj(k) && !IsWeakPart(h, h[r], KeyAt(i));
      } else {
        assert PartOf(h, h[r], ValueAt(i)) == Obj(k) && !IsWeakPart(h, h[r], ValueAt(i));
      }
    }
    if part :| PartOf(h, h[r], part) == Obj(k) && !IsWeakPart(h, h[r], part) {
      if !part.Metatable? {
        assert es[part.i] in es && EntryStrong(es[part.i], wk, wv, k);
      }
    }
  }

  /** Whatever a path names, the roots lead to. */
  lemma {:induction false} FindAccessible(s: State, p: Path)
    ensures AccessibleValue(s, ReadIn(s, p))
  {
    hide Reach;
    var v := ReadIn(s, p);
    if v.Obj? && p.In? {
      FindAccessible(s, p.of);
      var o := ReadIn(s, p.of).r;
      PartHeld(s.heap, o, p.part);
      ReachStep(s.heap, true, Roots(s), o, v.r);
    } else if v.Obj? {
      assert v.r in Roots(s);
      ReachRoot(s.heap, true, Roots(s), v.r);
    }
  }
}
