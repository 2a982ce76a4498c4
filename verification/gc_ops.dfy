/** The instructions of the mutator and what each does to what the mutator can see. */
module GcOps {
  import opened GcHeap
  import opened GcState
  import opened GcInv
  import opened GcPaths
  import opened Gc
  import opened GcUnseen

  // ------------------------------------------------------------ instructions

  /** One instruction, or one piece of collector work. dst is a slot of the running thread and
      r, u are addresses that the allocator may hand out. An instruction whose operands do not
      fit is skipped. */
  datatype Op =
    | Collect                                          // one collector step
    | CollectAll                                       // a full collection
    | Load(dst: nat, src: Path)
    | NewTable(dst: nat, r: Ref, size: nat)            // an empty table with room for size keys
    | NewString(dst: nat, r: Ref, bucket: nat)         // a string made, or found in the string table
    | FixString(str: Path)
    | NewUserdata(dst: nat, r: Ref, env: Path)
    | NewThread(dst: nat, r: Ref, size: nat, top: nat) // it shares the globals of the running thread
    | NewClosure(dst: nat, r: Ref, held: seq<Path>)
    | NewProto(dst: nat, r: Ref, held: seq<Path>)
    | SetField(tab: Path, i: nat, key: Path, src: Path) // tab[key] = src, using node i
    | Resize(tab: Path, layout: seq<nat>)              // lay the used entries out afresh
    | SetMetatable(obj: Path, src: Path)               // of a table or userdata
    | SetMode(tab: Path, weakKey: bool, weakVal: bool) // the mode a table gives as a metatable
    | SetEnv(obj: Path, src: Path)                     // of a userdata or thread
    | SetHeld(obj: Path, i: nat, src: Path)            // replace or add what a closure or prototype holds
    | Capture(cl: Path, level: nat, u: Ref)            // add an upvalue for the variable in a stack slot
    | SetUpval(up: Path, src: Path)
    | CloseFrom(level: nat)                            // close the upvalues at or above a level
    | MoveTop(top: nat)
    | GrowStack(size: nat)
    | Push(th: Path, i: nat, src: Path)                // write to the stack of any thread
    | Resume(th: Path)
    | SetBasicType(k: nat, src: Path)

  // ------------------------------------------------------------- parts of objects

  /** The object has the part, or can be given it. */
  predicate HasPart(o: Object, part: Part) {
    match (o, part)
    case (Table(_, _, _, _), Metatable) => true
    case (Udata(_, _), Metatable) => true
    case (Udata(_, _), Env) => true
    case (Closure(held), HeldAt(i)) => i <= |held|
    case (Proto(held), HeldAt(i)) => i <= |held|
    case (UpVal(_), Content) => true
    case (Thread(_, _, _, _), Env) => true
    case (Thread(_, stack, _, _), SlotAt(i)) => i < |stack|
    case _ => false
  }

  function Put(l: seq<Value>, i: nat, v: Value): seq<Value>
    requires i <= |l|
  {
    if i < |l| then l[i := v] else l + [v]
  }

  function PutSlotAt(h: Heap, t: Ref, i: nat, v: Value): Heap {
    if t in h && h[t].Thread? && i < |h[t].stack| then h[t := h[t].(stack := h[t].stack[i := v])] else h
  }

  /** The heap after v has become that part of r; an open upvalue stands for a stack slot. */
  function WithPart(h: Heap, r: Ref, part: Part, v: Value): Heap
    requires r in h && HasPart(h[r], part)
  {
    match h[r]
    case Table(_, wk, wv, es) => h[r := Table(v, wk, wv, es)]
    case Udata(m, e) => h[r := if part.Metatable? then Udata(v, e) else Udata(m, v)]
    case Closure(held) => h[r := Closure(Put(held, part.i, v))]
    case Proto(held) => h[r := Proto(Put(held, part.i, v))]
    case UpVal(Open(t, i)) => PutSlotAt(h, t, i, v)
    case UpVal(Closed(_)) => h[r := UpVal(Closed(v))]
    case Thread(_, _, _, _) => if part.Env? then h[r := h[r].(gt := v)] else PutSlotAt(h, r, part.i, v)
  }

  /** The effect of a store of v to a part of o: nothing, if it has no such part. */
  function Stored(h: Heap, o: Value, part: Part, v: Value): Heap {
    if o.Obj? && o.r in h && HasPart(h[o.r], part) then WithPart(h, o.r, part, v) else h
  }

  /** The stack slot of an open upvalue is there. */
  predicate SlotThere(h: Heap, r: Ref) {
    r in h && h[r].UpVal? && h[r].cell.Open? ==>
      h[r].cell.th in h && h[h[r].cell.th].Thread? && h[r].cell.slot < |h[h[r].cell.th].stack|
  }

  /** What is stored is what is read back. */
  lemma StoredReads(h: Heap, r: Ref, part: Part, v: Value)
    requires r in h && HasPart(h[r], part)
    requires SlotThere(h, r)
    ensures var h' := Stored(h, Obj(r), part, v);
      && h'.Keys == h.Keys && PartOf(h', h'[r], part) == v
  {
  }

  /** Every other part of an object reads as before, but for upvalues of a slot that is stored to. */
  lemma StoredElsewhere(h: Heap, r: Ref, part: Part, v: Value, q: Ref, p: Part)
    requires r in h && q in h && HasPart(h[r], part) && !h[r].UpVal? && !h[q].UpVal? && (q != r || p != part)
    ensures var h' := Stored(h, Obj(r), part, v); q in h' && PartOf(h', h'[q], p) == PartOf(h, h[q], p)
  {
  }

  // ------------------------------------------------------------- fields of tables

  /** A key may be stored in node i: it is there already, or the node is empty and it is nowhere. */
  predicate Fits(es: seq<Entry>, i: nat, k: Value) {
    && i < |es| && !k.Nil?
    && (es[i].key == Live(k) || (es[i].val.Nil? && forall j :: 0 <= j < |es| ==> es[j].key != Live(k)))
  }

  function FieldStored(h: Heap, t: Value, i: nat, k: Value, v: Value): Heap {
    if t.Obj? && t.r in h && h[t.r].Table? && Fits(h[t.r].entries, i, k) then
      h[t.r := h[t.r].(entries := h[t.r].entries[i := Entry(Live(k), v)])]
    else h
  }

  /** The value is read back from the node, under its key; all other parts of all objects read as
      before. Nothing is stored if the node is in use for another key, or the key is elsewhere. */
  lemma FieldReads(h: Heap, t: Ref, i: nat, k: Value, v: Value)
    requires t in h && h[t].Table? && i < |h[t].entries| && !k.Nil?
    ensures var h', es := FieldStored(h, Obj(t), i, k, v), h[t].entries;
      && h'.Keys == h.Keys
      && if es[i].key == Live(k) || (es[i].val.Nil? && forall j :: 0 <= j < |es| ==> es[j].key != Live(k)) then
           && PartOf(h', h'[t], ValueAt(i)) == v && (!v.Nil? ==> PartOf(h', h'[t], KeyAt(i)) == k)
           && forall q, p :: q in h && !(q == t && (p == ValueAt(i) || p == KeyAt(i))) ==>
                PartOf(h', h'[q], p) == PartOf(h, h[q], p)
         else h' == h
  {
  }

  /** Each used entry is to go to one place. */
  predicate IsLayout(es: seq<Entry>, layout: seq<nat>) {
    && (forall x: nat :: x < |es| && !es[x].val.Nil? ==> x in layout)
    && (forall a, b :: 0 <= a < b < |layout| && layout[a] == layout[b] < |es| ==> es[layout[a]].val.Nil?)
  }

  function Laid(es: seq<Entry>, layout: seq<nat>): seq<Entry> {
    seq(|layout|, n requires 0 <= n < |layout| =>
      if layout[n] < |es| && !es[layout[n]].val.Nil? then es[layout[n]] else Entry(Live(Nil), Nil))
  }

  function LaidOut(h: Heap, t: Value, layout: seq<nat>): Heap {
    if t.Obj? && t.r in h && h[t.r].Table? && IsLayout(h[t.r].entries, layout) then
      h[t.r := h[t.r].(entries := Laid(h[t.r].entries, layout))]
    else h
  }

  /** Every field is at one new place, and at the other places there is nothing. */
  lemma LaidReads(h: Heap, t: Ref, layout: seq<nat>)
    requires t in h && h[t].Table?
    requires forall x: nat :: !PartOf(h, h[t], ValueAt(x)).Nil? ==> x in layout
    requires forall n, m :: 0 <= n < m < |layout| && layout[n] == layout[m] ==>
      PartOf(h, h[t], ValueAt(layout[n])).Nil?
    ensures var h' := LaidOut(h, Obj(t), layout);
      && h'.Keys == h.Keys && h'[t].Table? && |h'[t].entries| == |layout|
      && (forall x: nat :: !PartOf(h, h[t], ValueAt(x)).Nil? ==> exists n: nat :: MovedTo(h, h', t, x, n))
      && (forall n: nat :: !PartOf(h', h'[t], ValueAt(n)).Nil? ==> exists x: nat :: MovedTo(h, h', t, x, n))
  {
    hide MovedTo;
    LayoutIs(h, t, layout);
    var h' := LaidOut(h, Obj(t), layout);
    forall x: nat | !PartOf(h, h[t], ValueAt(x)).Nil? ensures exists n: nat :: MovedTo(h, h', t, x, n) {
      var n := PlaceOf(layout, x);
      LaidMoves(h, t, layout, n);
      assert MovedTo(h, h', t, x, n);
    }
    forall n: nat | !PartOf(h', h'[t], ValueAt(n)).Nil? ensures exists x: nat :: MovedTo(h, h', t, x, n) {
      LaidMoves(h, t, layout, n);
      assert MovedTo(h, h', t, layout[n], n);
    }
  }

  lemma LayoutIs(h: Heap, t: Ref, layout: seq<nat>)
    requires t in h && h[t].Table?
    requires forall x: nat :: !PartOf(h, h[t], ValueAt(x)).Nil? ==> x in layout
    requires forall n, m :: 0 <= n < m < |layout| && layout[n] == layout[m] ==>
      PartOf(h, h[t], ValueAt(layout[n])).Nil?
    ensures IsLayout(h[t].entries, layout)
  {
    var es := h[t].entries;
    forall x: nat | x < |es| && !es[x].val.Nil? ensures x in layout {
      assert PartOf(h, h[t], ValueAt(x)) == es[x].val;
    }
    forall n, m | 0 <= n < m < |layout| && layout[n] == layout[m] < |es| ensures es[layout[n]].val.Nil? {
      assert PartOf(h, h[t], ValueAt(layout[n])) == es[layout[n]].val;
    }
  }

  ghost function PlaceOf(layout: seq<nat>, x: nat): (n: nat)
    requires x in layout
    ensures n < |layout| && layout[n] == x
  {
    var n :| 0 <= n < |layout| && layout[n] == x;
    n
  }

  lemma LaidMoves(h: Heap, t: Ref, layout: seq<nat>, n: nat)
    requires t in h && h[t].Table? && IsLayout(h[t].entries, layout) && n < |layout|
    ensures var h' := LaidOut(h, Obj(t), layout);
      && h'.Keys == h.Keys && h'[t].Table?
      && (layout[n] < |h[t].entries| ==> MovedTo(h, h', t, layout[n], n))
      && (layout[n] >= |h[t].entries| ==> PartOf(h', h'[t], ValueAt(n)).Nil?)
  {
    hide IsLayout;
  }

  ghost predicate MovedTo(h: Heap, h': Heap, t: Ref, x: nat, n: nat)
    requires t in h && t in h'
  {
    && PartOf(h', h'[t], ValueAt(n)) == PartOf(h, h[t], ValueAt(x))
    && PartOf(h', h'[t], KeyAt(n)) == PartOf(h, h[t], KeyAt(x))
  }

  function ModeSet(h: Heap, t: Value, weakKey: bool, weakVal: bool): Heap {
    if t.Obj? && t.r in h && h[t.r].Table? then h[t.r := h[t.r].(weakKey := weakKey, weakVal := weakVal)] else h
  }

  // ------------------------------------------------------------- new objects

  /** A new object, if its address is free and there is a slot to put it in. */
  function Made(h: Heap, t: Ref, dst: nat, r: Ref, o: Object): Heap {
    if r !in h && t in h && h[t].Thread? && dst < |h[t].stack| then PutSlotAt(h[r := o], t, dst, Obj(r)) else h
  }

  /** The slot leads to the new object. */
  lemma MadeReads(h: Heap, t: Ref, dst: nat, r: Ref, o: Object)
    requires r !in h && t in h && h[t].Thread? && dst < |h[t].stack|
    ensures var h' := Made(h, t, dst, r, o);
      && h'.Keys == h.Keys + {r} && h'[r] == o && PartOf(h', h'[t], SlotAt(dst)) == Obj(r)
      && forall q :: q in h && q != t ==> h'[q] == h[q]
  {
  }

  function Empty(n: nat): seq<Entry> { seq(n, _ => Entry(Live(Nil), Nil)) }

  function Nils(n: nat): seq<Value> { seq(n, _ => Nil) }

  function GlobalsOf(h: Heap, t: Ref): Value { if t in h && h[t].Thread? then h[t].gt else Nil }

  /** A string is found in the table of strings, or made. */
  function StringMade(h: Heap, t: Ref, dst: nat, r: Ref): Heap {
    if (r in h ==> h[r].String?) && t in h && h[t].Thread? && dst < |h[t].stack| then
      PutSlotAt(h[r := String], t, dst, Obj(r))
    else h
  }

  // ------------------------------------------------------------------ upvalues

  /** w is the open upvalue for a slot of t, the one there was or, there being none, a new one at u. */
  ghost predicate FoundUpval(h: Heap, h1: Heap, t: Ref, level: nat, u: Ref, w: Ref) {
    && t in h && h[t].Thread?
    && if w in h then h1 == h && h[w] == UpVal(Open(t, level))
       else
         && w == u && (forall x: Ref :: x in h ==> h[x] != UpVal(Open(t, level)))
         && t in h1 && h1[t].Thread? && h1 == h[u := UpVal(Open(t, level))][t := h[t].(open := h1[t].open)]
  }

  ghost predicate Captured(h: Heap, h': Heap, t: Ref, c: Value, level: nat, u: Ref) {
    exists h1: Heap, w: Ref :: FoundUpval(h, h1, t, level, u, w) && h' == WithHeld(h1, c, w)
  }

  /** The closure c, if it is one, holds w after what it held. */
  function WithHeld(h: Heap, c: Value, w: Ref): Heap {
    if c.Obj? && c.r in h && h[c.r].Closure? then h[c.r := Closure(h[c.r].held + [Obj(w)])] else h
  }

  /** From s to s' the upvalues of t from level on have been closed with the values they had; some
      that were dead are gone. */
  ghost predicate ClosedFrom(s: State, s': State, t: Ref, level: nat) {
    && OnlyClosed(s.heap, s'.heap, t, level)
    && (forall r :: r in s.heap && r !in s'.heap ==> IsDead(s, r))
    && (forall u :: u in s'.heap ==> !ReadsFrom(s'.heap[u], t, level))
  }

  /** What is left reads as before: an upvalue has the value that the slot had. */
  lemma ClosedReads(s: State, s': State, t: Ref, level: nat, q: Ref, p: Part)
    requires ClosedFrom(s, s', t, level) && q in s'.heap && t in s.heap
    requires q in s.heap && IsOpen(s.heap[q]) ==> s.heap[q].cell.th in s.heap && s.heap[s.heap[q].cell.th].Thread?
    ensures q in s.heap && PartOf(s'.heap, s'.heap[q], p) == PartOf(s.heap, s.heap[q], p)
  {
    var h, h' := s.heap, s'.heap;
    if q != t && IsOpen(h'[q]) && h'[q].cell.th in h && h'[q].cell.th != t {
      var th := h'[q].cell.th;
      assert th in h' && h'[th] == h[th];
    }
  }

  // ------------------------------------------------------------------- effects

  /** The mutator sees the same but for the heap. */
  ghost predicate HeapIs(s: State, s': State, h: Heap) {
    s'.heap == h && s'.running == s.running && s'.registry == s.registry && s'.types == s.types && s'.fixed == s.fixed
  }

  ghost function ReadEach(s: State, ps: seq<Path>): seq<Value> {
    seq(|ps|, i requires 0 <= i < |ps| => ReadIn(s, ps[i]))
  }

  ghost predicate Effect(s: State, op: Op, s': State) {
    var h, t := s.heap, s.running;
    match op
    case Collect => Unseen(s, s')
    case CollectAll => Unseen(s, s')
    case Load(dst, src) => HeapIs(s, s', PutSlotAt(h, t, dst, ReadIn(s, src)))
    case NewTable(dst, r, size) => HeapIs(s, s', Made(h, t, dst, r, Table(Nil, false, false, Empty(size))))
    case NewString(dst, r, b) => HeapIs(s, s', if b < |s.strt| then StringMade(h, t, dst, r) else h)
    case FixString(str) =>
      var v := ReadIn(s, str);
      s' == if v.Obj? && v.r in h && h[v.r].String? then s.(fixed := s.fixed + {v.r}) else s
    case NewUserdata(dst, r, env) => HeapIs(s, s', Made(h, t, dst, r, Udata(Nil, ReadIn(s, env))))
    case NewThread(dst, r, size, top) =>
      HeapIs(s, s', Made(h, t, dst, r, Thread(GlobalsOf(h, t), Nils(size), if top < size then top else size, [])))
    case NewClosure(dst, r, held) => HeapIs(s, s', Made(h, t, dst, r, Closure(ReadEach(s, held))))
    case NewProto(dst, r, held) => HeapIs(s, s', Made(h, t, dst, r, Proto(ReadEach(s, held))))
    case SetField(tab, i, key, src) =>
      HeapIs(s, s', FieldStored(h, ReadIn(s, tab), i, ReadIn(s, key), ReadIn(s, src)))
    case Resize(tab, layout) => HeapIs(s, s', LaidOut(h, ReadIn(s, tab), layout))
    case SetMetatable(obj, src) => HeapIs(s, s', Stored(h, ReadIn(s, obj), Part.Metatable, ReadIn(s, src)))
    case SetMode(tab, weakKey, weakVal) => HeapIs(s, s', ModeSet(h, ReadIn(s, tab), weakKey, weakVal))
    case SetEnv(obj, src) => HeapIs(s, s', Stored(h, ReadIn(s, obj), Env, ReadIn(s, src)))
    case SetHeld(obj, i, src) => HeapIs(s, s', Stored(h, ReadIn(s, obj), HeldAt(i), ReadIn(s, src)))
    case Capture(cl, level, u) =>
      HeapIs(s, s', s'.heap) &&
      if t in h && h[t].Thread? && level < h[t].top && u !in h then
        Captured(h, s'.heap, t, ReadIn(s, cl), level, u)
      else s'.heap == h
    case SetUpval(up, src) => HeapIs(s, s', Stored(h, ReadIn(s, up), Content, ReadIn(s, src)))
    case CloseFrom(level) => HeapIs(s, s', s'.heap) && ClosedFrom(s, s', t, level)
    case MoveTop(top) =>
      if t in h && h[t].Thread? && top <= |h[t].stack| then
        exists s1: State :: ClosedFrom(s, s1, t, top) && t in s1.heap && s1.heap[t].Thread? &&
          HeapIs(s, s', s1.heap[t := s1.heap[t].(top := top)])
      else HeapIs(s, s', h)
    case GrowStack(size) =>
      HeapIs(s, s',
        if t in h && h[t].Thread? && h[t].top <= size then h[t := h[t].(stack := Resized(h[t].stack, size))] else h)
    case Push(th, i, src) => HeapIs(s, s', Stored(h, ReadIn(s, th), SlotAt(i), ReadIn(s, src)))
    case Resume(th) =>
      var v := ReadIn(s, th);
      s' == if v.Obj? && v.r in h && h[v.r].Thread? then s.(running := v.r) else s
    case SetBasicType(k, src) => s' == if k < |s.types| then s.(types := s.types[k := ReadIn(s, src)]) else s
  }

  function Resized(stack: seq<Value>, size: nat): seq<Value> {
    if size <= |stack| then stack[..size] else stack + Nils(size - |stack|)
  }

  /** The objects that have a part, by the part. */
  lemma PartsAre(o: Object, i: nat)
    ensures HasPart(o, Metatable) <==> o.Table? || o.Udata?
    ensures HasPart(o, Env) <==> o.Udata? || o.Thread?
    ensures HasPart(o, Content) <==> o.UpVal?
    ensures HasPart(o, HeldAt(i)) <==> (o.Closure? || o.Proto?) && i <= |o.held|
    ensures HasPart(o, SlotAt(i)) <==> o.Thread? && i < |o.stack|
  {
  }

  /** The instruction that stores src to a part of obj. */
  predicate IsStore(op: Op, obj: Path, part: Part, src: Path) {
    match part
    case Metatable => op == SetMetatable(obj, src)
    case Env => op == SetEnv(obj, src)
    case HeldAt(i) => op == SetHeld(obj, i, src)
    case Content => op == SetUpval(obj, src)
    case SlotAt(i) => op == Push(obj, i, src) || (obj == Running && op == Load(i, src))
    case _ => false
  }

  lemma StoreIs(s: State, op: Op, s': State, obj: Path, part: Part, src: Path)
    requires IsStore(op, obj, part, src) && Effect(s, op, s')
    requires op.Load? ==> s.running in s.heap && s.heap[s.running].Thread? && part.i < |s.heap[s.running].stack|
    ensures HeapIs(s, s', Stored(s.heap, ReadIn(s, obj), part, ReadIn(s, src)))
  {
    hide HeapIs, Find, Effect, WithPart, PutSlotAt, Stored;
    match part
    case Metatable => EffectOn(s, s', obj, src);
    case Env => EffectOn(s, s', obj, src);
    case HeldAt(i) => EffectAt(s, s', obj, i, src);
    case Content => EffectOn(s, s', obj, src);
    case SlotAt(i) =>
      EffectAt(s, s', obj, i, src);
      if op.Load? {
        NamesRunning(s);
        SlotStored(s.heap, s.running, i, ReadIn(s, src));
      }
  }

  lemma EffectOn(s: State, s': State, obj: Path, src: Path)
    ensures var h, o, v := s.heap, ReadIn(s, obj), ReadIn(s, src);
      && (Effect(s, SetMetatable(obj, src), s') ==> HeapIs(s, s', Stored(h, o, Part.Metatable, v)))
      && (Effect(s, SetEnv(obj, src), s') ==> HeapIs(s, s', Stored(h, o, Env, v)))
      && (Effect(s, SetUpval(obj, src), s') ==> HeapIs(s, s', Stored(h, o, Content, v)))
  {
    hide HeapIs, Find, Stored, PutSlotAt, Unseen, Captured, ClosedFrom, FieldStored, LaidOut, ModeSet, Made, StringMade,
      Resized, ReadEach, GlobalsOf, Empty, Nils;
  }

  lemma EffectAt(s: State, s': State, obj: Path, i: nat, src: Path)
    ensures var h, o, v := s.heap, ReadIn(s, obj), ReadIn(s, src);
      && (Effect(s, SetHeld(obj, i, src), s') ==> HeapIs(s, s', Stored(h, o, HeldAt(i), v)))
      && (Effect(s, Push(obj, i, src), s') ==> HeapIs(s, s', Stored(h, o, SlotAt(i), v)))
      && (Effect(s, Load(i, src), s') ==> HeapIs(s, s', PutSlotAt(h, s.running, i, v)))
  {
    hide HeapIs, Find, Stored, PutSlotAt, Unseen, Captured, ClosedFrom, FieldStored, LaidOut, ModeSet, Made, StringMade,
      Resized, ReadEach, GlobalsOf, Empty, Nils;
  }

  lemma SlotStored(h: Heap, t: Ref, i: nat, v: Value)
    requires t in h && h[t].Thread? && i < |h[t].stack|
    ensures Stored(h, Obj(t), SlotAt(i), v) == PutSlotAt(h, t, i, v)
  {
  }

  /** After a store the part reads as the value that was named. */
  lemma StoreRead(s: State, op: Op, s': State, obj: Path, part: Part, src: Path)
    requires IsStore(op, obj, part, src) && Effect(s, op, s')
    requires var o := ReadIn(s, obj); o.Obj? && o.r in s.heap && HasPart(s.heap[o.r], part) && SlotThere(s.heap, o.r)
    ensures var r := ReadIn(s, obj).r;
      s'.heap.Keys == s.heap.Keys && PartOf(s'.heap, s'.heap[r], part) == ReadIn(s, src)
  {
    hide Effect, Stored, PartOf;
    NamesRunning(s);
    StoreIs(s, op, s', obj, part, src);
    StoredReads(s.heap, ReadIn(s, obj).r, part, ReadIn(s, src));
  }

  lemma NamesRunning(s: State)
    ensures ReadIn(s, Running) == Obj(s.running)
  {
  }

  /** No other part of any object reads differently after a store. */
  lemma StoreOnly(s: State, op: Op, s': State, obj: Path, part: Part, src: Path, q: Ref, p: Part)
    requires IsStore(op, obj, part, src) && Effect(s, op, s')
    requires var o := ReadIn(s, obj); o.Obj? && o.r in s.heap && HasPart(s.heap[o.r], part) && !s.heap[o.r].UpVal?
    requires q in s.heap && !s.heap[q].UpVal? && (q != ReadIn(s, obj).r || p != part)
    ensures q in s'.heap && PartOf(s'.heap, s'.heap[q], p) == PartOf(s.heap, s.heap[q], p)
  {
    hide Effect, Stored, PartOf;
    NamesRunning(s);
    StoreIs(s, op, s', obj, part, src);
    StoredElsewhere(s.heap, ReadIn(s, obj).r, part, ReadIn(s, src), q, p);
  }

  /** After tab[key] = src the field reads as the value of src. */
  lemma FieldDone(s: State, tab: Path, i: nat, key: Path, src: Path, s': State)
    requires Effect(s, SetField(tab, i, key, src), s')
    requires var t, k := ReadIn(s, tab), ReadIn(s, key);
      && t.Obj? && t.r in s.heap && s.heap[t.r].Table? && !k.Nil?
      && i < |s.heap[t.r].entries| && s.heap[t.r].entries[i].val.Nil?
      && forall j :: 0 <= j < |s.heap[t.r].entries| && j != i ==> s.heap[t.r].entries[j].key != Live(k)
    ensures var r, k, v := ReadIn(s, tab).r, ReadIn(s, key), ReadIn(s, src);
      && s'.heap.Keys == s.heap.Keys && PartOf(s'.heap, s'.heap[r], ValueAt(i)) == v
      && (!v.Nil? ==> PartOf(s'.heap, s'.heap[r], KeyAt(i)) == k)
  {
    hide Find;
    FieldReads(s.heap, ReadIn(s, tab).r, i, ReadIn(s, key), ReadIn(s, src));
  }
}
