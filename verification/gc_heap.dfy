/** The object graph seen by the Lua garbage collector: what each kind of object
    refers to, and what it means for an object to be reachable. */
module GcHeap {

  type Ref = nat  // an address

  /** A Lua value. Prim stands for every value that is not collectable. */
  datatype Value = Nil | Prim | Obj(r: Ref)

  /** A node key; the collector turns the key of an empty entry into Dead. */
  datatype Key = Dead | Live(v: Value)

  datatype Entry = Entry(key: Key, val: Value)

  /** An upvalue reads a stack slot while open and its own copy once closed. */
  datatype Cell = Open(th: Ref, slot: nat) | Closed(v: Value)

  /** Closure and Proto hold, in order, everything their traversal marks.
      A table carries the weak mode that it gives to the tables it is the
      metatable of. A thread owns its stack up to the highest frame limit. */
  datatype Object =
    | String
    | Udata(mt: Value, env: Value)
    | UpVal(cell: Cell)
    | Closure(held: seq<Value>)
    | Proto(held: seq<Value>)
    | Table(mt: Value, weakKey: bool, weakVal: bool, entries: seq<Entry>)
    | Thread(gt: Value, stack: seq<Value>, top: nat, open: seq<Ref>)

  type Heap = map<Ref, Object>

  predicate IsOpen(o: Object) { o.UpVal? && o.cell.Open? }

  // ---------------------------------------------------------------- edges

  predicate WeakKeys(h: Heap, mt: Value) {
    mt.Obj? && mt.r in h && h[mt.r].Table? && h[mt.r].weakKey
  }

  predicate WeakVals(h: Heap, mt: Value) {
    mt.Obj? && mt.r in h && h[mt.r].Table? && h[mt.r].weakVal
  }

  /** The value an upvalue reads. */
  function UpValue(h: Heap, c: Cell): Value {
    match c
    case Closed(v) => v
    case Open(t, i) => if t in h && h[t].Thread? && i < |h[t].stack| then h[t].stack[i] else Nil
  }

  predicate EntryHolds(e: Entry, k: Ref) {
    !e.val.Nil? && (e.key == Live(Obj(k)) || e.val == Obj(k))
  }

  /** r refers to k, weakly or strongly: everything the mutator can follow. */
  ghost predicate Holds(h: Heap, r: Ref, k: Ref)
    requires r in h
  {
    match h[r]
    case String => false
    case Udata(m, e) => m == Obj(k) || e == Obj(k)
    case UpVal(c) => UpValue(h, c) == Obj(k)
    case Closure(held) => Obj(k) in held
    case Proto(held) => Obj(k) in held
    case Table(m, _, _, es) => m == Obj(k) || exists e :: e in es && EntryHolds(e, k)
    case Thread(gt, stack, _, _) => gt == Obj(k) || Obj(k) in stack
  }

  predicate EntryStrong(e: Entry, wk: bool, wv: bool, k: Ref) {
    !e.val.Nil? && ((!wk && e.key == Live(Obj(k))) || (!wv && e.val == Obj(k)))
  }

  /** r keeps k alive: weak parts of weak tables and stack slots above top do not count. */
  ghost predicate Keeps(h: Heap, r: Ref, k: Ref)
    requires r in h
  {
    match h[r]
    case Table(m, _, _, es) =>
      m == Obj(k) || exists e :: e in es && EntryStrong(e, WeakKeys(h, m), WeakVals(h, m), k)
    case Thread(gt, stack, top, _) =>
      gt == Obj(k) || exists i :: 0 <= i < top && i < |stack| && stack[i] == Obj(k)
    case _ => Holds(h, r, k)
  }

  predicate EntryMentions(e: Entry, k: Ref) { e.key == Live(Obj(k)) || e.val == Obj(k) }

  /** What must not be white once r is black. Unlike Holds it counts the key of an
      entry whose value is nil, since a later store there meets no barrier for the key. */
  ghost predicate Mentions(h: Heap, r: Ref, k: Ref)
    requires r in h
  {
    match h[r]
    case Table(m, _, _, es) => m == Obj(k) || exists e :: e in es && EntryMentions(e, k)
    case _ => Holds(h, r, k)
  }

  lemma EdgeOrder(h: Heap, r: Ref, k: Ref)
    requires r in h
    ensures Keeps(h, r, k) ==> Holds(h, r, k)
    ensures Holds(h, r, k) ==> Mentions(h, r, k)
  {
    if h[r].Table? {
      var m, es := h[r].mt, h[r].entries;
      if Keeps(h, r, k) && m != Obj(k) {
        var e :| e in es && EntryStrong(e, WeakKeys(h, m), WeakVals(h, m), k);
        assert EntryHolds(e, k);
      }
      if Holds(h, r, k) && m != Obj(k) {
        var e :| e in es && EntryHolds(e, k);
        assert EntryMentions(e, k);
      }
    }
  }

  // --------------------------------------------------------- reachability

  /** One step of a path: any reference, or only one that keeps its target alive. */
  ghost predicate Edge(h: Heap, any: bool, r: Ref, k: Ref)
    requires r in h
  {
    if any then Holds(h, r, k) else Keeps(h, r, k)
  }

  ghost predicate IsPath(h: Heap, any: bool, p: seq<Ref>) {
    && p != []
    && forall i {:trigger p[i]} :: 0 <= i < |p| - 1 ==> p[i] in h && Edge(h, any, p[i], p[i + 1])
  }

  ghost predicate PathTo(h: Heap, any: bool, roots: set<Ref>, p: seq<Ref>, r: Ref) {
    IsPath(h, any, p) && p[0] in roots && p[|p| - 1] == r
  }

  ghost predicate Reach(h: Heap, any: bool, roots: set<Ref>, r: Ref) {
    exists p :: PathTo(h, any, roots, p, r)
  }

  /** A set of objects that no edge leaves. */
  ghost predicate IsClosed(h: Heap, any: bool, live: set<Ref>) {
    && live <= h.Keys
    && forall r, k :: r in live && Edge(h, any, r, k) ==> k in live
  }

  /** Every closed set that contains the roots contains all that is reachable. */
  lemma {:induction false} ReachInClosed(h: Heap, any: bool, roots: set<Ref>, live: set<Ref>, r: Ref)
    requires IsClosed(h, any, live) && roots <= live
    requires Reach(h, any, roots, r)
    ensures r in live
  {
    var p :| PathTo(h, any, roots, p, r);
    PathStays(h, any, live, p, |p| - 1);
  }

  lemma {:induction false} PathStays(h: Heap, any: bool, live: set<Ref>, p: seq<Ref>, n: nat)
    requires IsClosed(h, any, live)
    requires IsPath(h, any, p) && p[0] in live && n < |p|
    ensures p[n] in live
  {
    if n > 0 {
      PathStays(h, any, live, p, n - 1);
      assert Edge(h, any, p[n - 1], p[n - 1 + 1]);
    }
  }

  lemma ReachRoot(h: Heap, any: bool, roots: set<Ref>, r: Ref)
    requires r in roots
    ensures Reach(h, any, roots, r)
  {
    assert PathTo(h, any, roots, [r], r);
  }

  lemma ReachStep(h: Heap, any: bool, roots: set<Ref>, r: Ref, k: Ref)
    requires Reach(h, any, roots, r) && r in h && Edge(h, any, r, k)
    ensures Reach(h, any, roots, k)
  {
    var p :| PathTo(h, any, roots, p, r);
    var q := p + [k];
    forall i | 0 <= i < |q| - 1 ensures q[i] in h && Edge(h, any, q[i], q[i + 1]) {
      if i < |p| - 1 {
        assert p[i] in h && Edge(h, any, p[i], p[i + 1]);
      }
    }
    assert PathTo(h, any, roots, q, k);
  }

  /** What keeps an object alive also lets the mutator get at it. */
  lemma {:induction false} KeptIsReachable(h: Heap, roots: set<Ref>, r: Ref)
    requires Reach(h, false, roots, r)
    ensures Reach(h, true, roots, r)
  {
    var p :| PathTo(h, false, roots, p, r);
    forall i | 0 <= i < |p| - 1 ensures p[i] in h && Edge(h, true, p[i], p[i + 1]) {
      assert p[i] in h;
      EdgeOrder(h, p[i], p[i + 1]);
    }
    assert PathTo(h, true, roots, p, r);
  }

  /** Two heaps with the same edges out of every reachable object reach the same objects. */
  lemma {:induction false} ReachSame(h: Heap, h': Heap, any: bool, roots: set<Ref>, r: Ref)
    requires forall q, k :: q in h && Reach(h, any, roots, q) && Edge(h, any, q, k) ==> q in h' && Edge(h', any, q, k)
    requires Reach(h, any, roots, r)
    ensures Reach(h', any, roots, r)
  {
    var p :| PathTo(h, any, roots, p, r);
    forall i | 0 <= i < |p| - 1 ensures p[i] in h' && Edge(h', any, p[i], p[i + 1]) {
      assert p[i] in h && Edge(h, any, p[i], p[i + 1]);
      PrefixReach(h, any, roots, p, r, i);
    }
    assert PathTo(h', any, roots, p, r);
  }

  lemma PrefixReach(h: Heap, any: bool, roots: set<Ref>, p: seq<Ref>, r: Ref, i: nat)
    requires PathTo(h, any, roots, p, r) && i < |p|
    ensures Reach(h, any, roots, p[i])
  {
    assert PathTo(h, any, roots, p[..i + 1], p[i]);
  }
}
