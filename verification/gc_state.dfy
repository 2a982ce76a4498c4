/** The collector's state and the invariants it keeps: placement of objects in the
    collector's lists, safety (nothing alive refers to anything dead) and the
    tri-colour invariant of the mark phase. */
module GcState {
  import opened Shared
  import opened GcHeap

  /** White comes in two shades; the one that is not current means dead. */
  datatype Color = White(one: bool) | Gray | Black

  type Marks = map<Ref, Color>

  datatype Phase = Pause | Propagate | SweepString | Sweep | Finalize

  datatype State = State(
    heap: Heap, mark: Marks, cw: bool, phase: Phase,
    rootgc: seq<Ref>, strt: seq<seq<Ref>>, sweepStr: nat, sweepAt: nat,
    gray: seq<Ref>, grayagain: seq<Ref>, weak: seq<Ref>, uvhead: seq<Ref>,
    main: Ref, registry: Ref, running: Ref, types: seq<Value>, fixed: set<Ref>)

  predicate NonWhite(m: Marks, r: Ref) { r in m && !m[r].White? }

  predicate ValMarked(m: Marks, v: Value) { v.Obj? ==> NonWhite(m, v.r) }

  /** Kinds of object that wait in a gray list. */
  predicate Queued(o: Object) { o.Closure? || o.Proto? || o.Table? || o.Thread? }

  predicate NeverBlack(o: Object) { o.String? || o.Thread? || IsOpen(o) }

  function Whites(m: Marks): set<Ref> { set r | r in m && m[r].White? }

  // ------------------------------------------------------------ tri-colour

  /** The mark-phase invariant; the objects of x are exempt while they are being scanned. */
  ghost predicate TriColor(h: Heap, m: Marks, gray: seq<Ref>, grayagain: seq<Ref>, weak: seq<Ref>, x: set<Ref>) {
    && h.Keys == m.Keys
    && (forall r, k :: r in m && m[r].Black? && r !in x && Mentions(h, r, k) ==> NonWhite(m, k))
    && (forall r :: r in m && m[r].Black? && r !in x ==> !NeverBlack(h[r]))
    && (forall r :: r in m && m[r].Gray? && r !in x ==>
          && !h[r].Udata? && (h[r].UpVal? ==> IsOpen(h[r]))
          && (Queued(h[r]) ==> r in gray || r in grayagain || r in weak))
    && Lists(h, m, gray, grayagain, weak, x)
  }

  /** An object sits in at most one list, through its one gclist field. */
  ghost predicate Lists(h: Heap, m: Marks, gray: seq<Ref>, grayagain: seq<Ref>, weak: seq<Ref>, x: set<Ref>) {
    && NoDup(gray) && NoDup(grayagain) && NoDup(weak)
    && (forall r :: r in gray ==> r !in grayagain && r !in weak)
    && (forall r :: r in grayagain ==> r !in weak)
    && (forall r :: r in gray || r in grayagain || r in weak ==>
      r in h && r in m && Queued(h[r]) && (r in x || m[r].Gray?))
    && (forall r :: r in weak ==> h[r].Table?)
  }

  /** Marks only darken. */
  ghost predicate Darker(m: Marks, m': Marks) {
    && m.Keys == m'.Keys
    && forall r :: r in m ==> m'[r] == m[r] || (m[r].White? && !m'[r].White?)
  }

  /** Whatever became marked lies in s. */
  ghost predicate MarkedWithin(m: Marks, m': Marks, s: set<Ref>) {
    forall r :: r in m && r in m' && m[r].White? && !m'[r].White? ==> r in s
  }

  /** Every open upvalue that became marked has its value marked. */
  ghost predicate NewUpvalsScanned(h: Heap, m: Marks, m': Marks) {
    forall u :: u in h && u in m && u in m' && IsOpen(h[u]) && m[u].White? && !m'[u].White? ==>
        ValMarked(m', UpValue(h, h[u].cell))
  }

  /** All that one round of marking may do to the colours. */
  ghost predicate MarkRound(h: Heap, m: Marks, m': Marks, s: set<Ref>) {
    Darker(m, m') && MarkedWithin(m, m', s) && NewUpvalsScanned(h, m, m')
  }

  lemma MarkRoundTrans(h: Heap, m: Marks, m': Marks, m'': Marks, s: set<Ref>)
    requires h.Keys == m.Keys && MarkRound(h, m, m', s) && MarkRound(h, m', m'', s)
    ensures MarkRound(h, m, m'', s)
  {
    forall u | u in h && IsOpen(h[u]) && m[u].White? && !m''[u].White?
      ensures ValMarked(m'', UpValue(h, h[u].cell))
    {
      if m'[u].White? {} else {
        assert ValMarked(m', UpValue(h, h[u].cell));
      }
    }
  }

  // ---------------------------------------------------- what a scan rewrites

  predicate ScannedEntry(e: Entry, e': Entry) {
    e' == e || (e.val.Nil? && e'.val.Nil? && e'.key.Dead?)
  }

  /** A traversal may kill the keys of empty entries and clear stack slots above top. */
  ghost predicate ScannedObject(o: Object, o': Object) {
    || o' == o
    || (&& o.Table? && o'.Table? && o'.mt == o.mt && o'.weakKey == o.weakKey && o'.weakVal == o.weakVal
        && |o'.entries| == |o.entries|
        && forall i :: 0 <= i < |o.entries| ==> ScannedEntry(o.entries[i], o'.entries[i]))
    || (&& o.Thread? && o'.Thread? && o'.gt == o.gt && o'.top == o.top && o'.open == o.open
        && |o'.stack| == |o.stack|
        && forall i :: 0 <= i < |o.stack| ==> o'.stack[i] == o.stack[i] || (i >= o.top && o'.stack[i].Nil?))
  }

  ghost predicate ScannedHeap(h: Heap, h': Heap) {
    h.Keys == h'.Keys && forall r :: r in h ==> ScannedObject(h[r], h'[r])
  }

  /** Every open upvalue reads a slot below the top of an allocated thread. */
  ghost predicate UpvalsBelowTop(h: Heap) {
    forall u :: u in h && IsOpen(h[u]) ==>
      var t, i := h[u].cell.th, h[u].cell.slot;
      t in h && h[t].Thread? && i < h[t].top <= |h[t].stack|
  }

  lemma ScannedUpValue(h: Heap, h': Heap, u: Ref)
    requires ScannedHeap(h, h') && UpvalsBelowTop(h) && u in h && h[u].UpVal?
    ensures h'[u] == h[u] && UpValue(h', h'[u].cell) == UpValue(h, h[u].cell)
  {
    assert ScannedObject(h[u], h'[u]);
    if h[u].cell.Open? {
      assert IsOpen(h[u]);
      assert ScannedObject(h[h[u].cell.th], h'[h[u].cell.th]);
    }
  }

  lemma ScannedModes(h: Heap, h': Heap, m: Value)
    requires ScannedHeap(h, h')
    ensures WeakKeys(h', m) == WeakKeys(h, m) && WeakVals(h', m) == WeakVals(h, m)
  {
    if m.Obj? && m.r in h {
      assert ScannedObject(h[m.r], h'[m.r]);
    }
  }

  /** A scan changes nothing that keeps an object alive and adds no reference. */
  lemma ScannedEdges(h: Heap, h': Heap, r: Ref, k: Ref)
    requires ScannedHeap(h, h') && UpvalsBelowTop(h) && r in h
    ensures Keeps(h', r, k) <==> Keeps(h, r, k)
    ensures Holds(h', r, k) ==> Holds(h, r, k)
    ensures Mentions(h', r, k) ==> Mentions(h, r, k)
  {
    assert ScannedObject(h[r], h'[r]);
    if h[r].UpVal? {
      ScannedUpValue(h, h', r);
    } else if h[r].Table? {
      ScannedTableEdges(h, h', r, k);
    }
  }

  lemma ScannedTableEdges(h: Heap, h': Heap, r: Ref, k: Ref)
    requires ScannedHeap(h, h') && r in h && h[r].Table?
    ensures Keeps(h', r, k) <==> Keeps(h, r, k)
    ensures Holds(h', r, k) ==> Holds(h, r, k)
    ensures Mentions(h', r, k) ==> Mentions(h, r, k)
  {
    assert ScannedObject(h[r], h'[r]);
    var m := h[r].mt;
    ScannedModes(h, h', m);
    var wk, wv := WeakKeys(h, m), WeakVals(h, m);
    var es, es' := h[r].entries, h'[r].entries;
    if m != Obj(k) {
      if Keeps(h, r, k) {
        var e :| e in es && EntryStrong(e, wk, wv, k);
        var i :| 0 <= i < |es| && es[i] == e;
        assert ScannedEntry(es[i], es'[i]);
        assert es'[i] in es' && EntryStrong(es'[i], wk, wv, k);
      }
      if Keeps(h', r, k) {
        var e :| e in es' && EntryStrong(e, wk, wv, k);
        var i :| 0 <= i < |es'| && es'[i] == e;
        assert ScannedEntry(es[i], es'[i]);
        assert es[i] in es && EntryStrong(es[i], wk, wv, k);
      }
      if Holds(h', r, k) {
        var e :| e in es' && EntryHolds(e, k);
        var i :| 0 <= i < |es'| && es'[i] == e;
        assert ScannedEntry(es[i], es'[i]);
        assert es[i] in es && EntryHolds(es[i], k);
      }
      if Mentions(h', r, k) {
        var e :| e in es' && EntryMentions(e, k);
        var i :| 0 <= i < |es'| && es'[i] == e;
        assert ScannedEntry(es[i], es'[i]);
        assert es[i] in es && EntryMentions(es[i], k);
      }
    }
  }

  lemma ScannedTrans(h: Heap, h': Heap, h'': Heap)
    requires ScannedHeap(h, h') && ScannedHeap(h', h'')
    ensures ScannedHeap(h, h'')
  {
    forall r | r in h ensures ScannedObject(h[r], h''[r]) {
      assert ScannedObject(h[r], h'[r]) && ScannedObject(h'[r], h''[r]);
      if h[r].Table? && h'[r].Table? && h''[r].Table? {
        forall i | 0 <= i < |h[r].entries| ensures ScannedEntry(h[r].entries[i], h''[r].entries[i]) {
          assert ScannedEntry(h[r].entries[i], h'[r].entries[i]);
          assert ScannedEntry(h'[r].entries[i], h''[r].entries[i]);
        }
      }
    }
  }

  lemma ScannedClosed(h: Heap, h': Heap, s: set<Ref>)
    requires ScannedHeap(h, h') && UpvalsBelowTop(h) && IsClosed(h, false, s)
    ensures IsClosed(h', false, s) && UpvalsBelowTop(h')
  {
    forall r, k | r in s && Edge(h', false, r, k) ensures k in s {
      ScannedEdges(h, h', r, k);
      assert Edge(h, false, r, k);
    }
    forall u | u in h' && IsOpen(h'[u])
      ensures var t, i := h'[u].cell.th, h'[u].cell.slot; t in h' && h'[t].Thread? && i < h'[t].top <= |h'[t].stack|
    {
      assert ScannedObject(h[u], h'[u]);
      assert IsOpen(h[u]);
      assert ScannedObject(h[h[u].cell.th], h'[h[u].cell.th]);
    }
  }

  lemma ScannedTriColor(h: Heap, h': Heap, m: Marks, gray: seq<Ref>, grayagain: seq<Ref>, weak: seq<Ref>, x: set<Ref>)
    requires ScannedHeap(h, h') && UpvalsBelowTop(h) && TriColor(h, m, gray, grayagain, weak, x)
    ensures TriColor(h', m, gray, grayagain, weak, x)
  {
    forall r | r in h
      ensures h'[r].Table? == h[r].Table? && h'[r].Thread? == h[r].Thread?
      ensures !h[r].Table? && !h[r].Thread? ==> h'[r] == h[r]
    {
      assert ScannedObject(h[r], h'[r]);
    }
    forall r, k | r in m && m[r].Black? && r !in x && Mentions(h', r, k) ensures NonWhite(m, k) {
      ScannedEdges(h, h', r, k);
    }
  }

  // --------------------------------------------------- what a scan achieves

  predicate KeyMarked(m: Marks, k: Key) { k.Live? ==> ValMarked(m, k.v) }

  /** A scanned entry of a table with the given weakness. */
  predicate EntryDone(m: Marks, wk: bool, wv: bool, e: Entry) {
    if e.val.Nil? then !(e.key.Live? && e.key.v.Obj?)
    else (!wk ==> KeyMarked(m, e.key)) && (!wv ==> ValMarked(m, e.val))
  }

  ghost predicate TableDone(h: Heap, m: Marks, o: Ref) {
    && o in h && h[o].Table? && ValMarked(m, h[o].mt)
    && var wk, wv := WeakKeys(h, h[o].mt), WeakVals(h, h[o].mt);
       (wk && wv) || forall i :: 0 <= i < |h[o].entries| ==> EntryDone(m, wk, wv, h[o].entries[i])
  }

  predicate IsWeak(h: Heap, o: Ref) {
    o in h && h[o].Table? && (WeakKeys(h, h[o].mt) || WeakVals(h, h[o].mt))
  }

  /** A weak table whose strong parts are marked. */
  ghost predicate WeakDone(h: Heap, m: Marks, o: Ref) { TableDone(h, m, o) && IsWeak(h, o) }

  ghost predicate ThreadDone(h: Heap, m: Marks, o: Ref) {
    && o in h && h[o].Thread? && ValMarked(m, h[o].gt)
    && forall i :: 0 <= i < |h[o].stack| ==>
         if i < h[o].top then ValMarked(m, h[o].stack[i]) else h[o].stack[i].Nil?
  }

  /** One piece of collector work in the mark phase: contents scanned, colours darkened. */
  ghost predicate Round(h: Heap, m: Marks, h': Heap, m': Marks, s: set<Ref>) {
    ScannedHeap(h, h') && MarkRound(h', m, m', s)
  }

  lemma RoundTrans(h: Heap, m: Marks, h': Heap, m': Marks, h'': Heap, m'': Marks, s: set<Ref>)
    requires h.Keys == m.Keys && UpvalsBelowTop(h)
    requires Round(h, m, h', m', s) && Round(h', m', h'', m'', s)
    ensures Round(h, m, h'', m'', s)
  {
    ScannedTrans(h, h', h'');
    ScannedClosed(h, h', {});
    forall u | u in h'' && IsOpen(h''[u]) && m[u].White? && !m''[u].White?
      ensures ValMarked(m'', UpValue(h'', h''[u].cell))
    {
      assert ScannedObject(h'[u], h''[u]);
      ScannedUpValue(h', h'', u);
      if m'[u].White? {} else {
        assert ValMarked(m', UpValue(h', h'[u].cell));
      }
    }
  }

  /** A strong table that has been scanned mentions nothing white. */
  lemma StrongTableDone(h: Heap, m: Marks, o: Ref)
    requires TableDone(h, m, o) && !WeakKeys(h, h[o].mt) && !WeakVals(h, h[o].mt)
    ensures forall k :: Mentions(h, o, k) ==> NonWhite(m, k)
  {
    forall k | Mentions(h, o, k) ensures NonWhite(m, k) {
      if h[o].mt != Obj(k) {
        var e :| e in h[o].entries && EntryMentions(e, k);
        var i :| 0 <= i < |h[o].entries| && h[o].entries[i] == e;
        assert EntryDone(m, false, false, h[o].entries[i]);
      }
    }
  }

  /** The same, allowing for marked objects that changed from gray to black or back. */
  ghost predicate Advance(h: Heap, m: Marks, h': Heap, m': Marks) {
    && ScannedHeap(h, h') && m.Keys == m'.Keys
    && (forall r :: r in m ==> m'[r] == m[r] || !m'[r].White?)
    && NewUpvalsScanned(h', m, m')
  }

  lemma AdvanceTrans(h: Heap, m: Marks, h': Heap, m': Marks, h'': Heap, m'': Marks)
    requires h.Keys == m.Keys && UpvalsBelowTop(h) && Advance(h, m, h', m') && Advance(h', m', h'', m'')
    ensures Advance(h, m, h'', m'')
  {
    ScannedTrans(h, h', h'');
    ScannedClosed(h, h', {});
    forall u | u in h'' && IsOpen(h''[u]) && m[u].White? && !m''[u].White?
      ensures ValMarked(m'', UpValue(h'', h''[u].cell))
    {
      assert ScannedObject(h'[u], h''[u]);
      ScannedUpValue(h', h'', u);
      if !m'[u].White? {
        assert ValMarked(m', UpValue(h', h'[u].cell));
      }
    }
  }

  /** Scanned objects stay scanned as marking goes on. */
  lemma DoneStays(h: Heap, m: Marks, h': Heap, m': Marks, o: Ref)
    requires Advance(h, m, h', m')
    ensures TableDone(h, m, o) ==> TableDone(h', m', o)
    ensures WeakDone(h, m, o) ==> WeakDone(h', m', o)
    ensures ThreadDone(h, m, o) ==> ThreadDone(h', m', o)
  {
    if o in h {
      assert ScannedObject(h[o], h'[o]);
      if h[o].Table? {
        ScannedModes(h, h', h[o].mt);
      }
      if TableDone(h, m, o) {
        var mt := h[o].mt;
        ScannedModes(h, h', mt);
        var wk, wv := WeakKeys(h, mt), WeakVals(h, mt);
        if !(wk && wv) {
          forall i | 0 <= i < |h[o].entries| ensures EntryDone(m', wk, wv, h'[o].entries[i]) {
            assert EntryDone(m, wk, wv, h[o].entries[i]);
            assert ScannedEntry(h[o].entries[i], h'[o].entries[i]);
          }
        }
      }
    }
  }

  // ------------------------------------------------- the end of the mark phase

  ghost predicate UpvalsDone(h: Heap, m: Marks) {
    forall u :: u in h && IsOpen(h[u]) && NonWhite(m, u) ==> ValMarked(m, UpValue(h, h[u].cell))
  }

  /** Nothing waits to be scanned and no mutator step has happened since the last scan. */
  ghost predicate AllDone(h: Heap, m: Marks, grayagain: seq<Ref>, weak: seq<Ref>) {
    && TriColor(h, m, [], grayagain, weak, {}) && UpvalsDone(h, m)
    && (forall r :: r in grayagain ==> ThreadDone(h, m, r))
    && (forall r :: r in weak ==> WeakDone(h, m, r))
  }

  /** Then what is marked is closed under strong references ... */
  lemma MarkedIsClosed(h: Heap, m: Marks, grayagain: seq<Ref>, weak: seq<Ref>, r: Ref, k: Ref)
    requires AllDone(h, m, grayagain, weak) && NonWhite(m, r) && Keeps(h, r, k)
    ensures NonWhite(m, k)
  {
    EdgeOrder(h, r, k);
    if r in weak {
      assert WeakDone(h, m, r);
      var mt := h[r].mt;
      if mt != Obj(k) {
        var e :| e in h[r].entries && EntryStrong(e, WeakKeys(h, mt), WeakVals(h, mt), k);
        var i :| 0 <= i < |h[r].entries| && h[r].entries[i] == e;
        assert EntryDone(m, WeakKeys(h, mt), WeakVals(h, mt), h[r].entries[i]);
      }
    } else {
      MarkedHolds(h, m, grayagain, weak, r, k);
    }
  }

  /** ... and, weak tables apart, under all references. */
  lemma MarkedHolds(h: Heap, m: Marks, grayagain: seq<Ref>, weak: seq<Ref>, r: Ref, k: Ref)
    requires AllDone(h, m, grayagain, weak) && NonWhite(m, r) && r !in weak && Holds(h, r, k)
    ensures NonWhite(m, k)
  {
    EdgeOrder(h, r, k);
    if m[r].Gray? {
      assert r in grayagain ==> ThreadDone(h, m, r);
    }
  }

  /** An object about to be collected that is not a string. */
  predicate Doomed(h: Heap, m: Marks, v: Value) {
    v.Obj? && v.r in m && v.r in h && m[v.r].White? && !h[v.r].String?
  }

  predicate ClearedEntry(h: Heap, m: Marks, e: Entry, e': Entry) {
    e' == e || (&& !e.val.Nil? && e'.val.Nil? && (e'.key == e.key || e'.key.Dead?)
                && (Doomed(h, m, e.val) || (e.key.Live? && Doomed(h, m, e.key.v))))
  }

  /** Entries of weak tables are removed only if their key or value is about to be collected. */
  ghost predicate ClearedHeap(h: Heap, m: Marks, h': Heap, weak: seq<Ref>) {
    && h.Keys == h'.Keys
    && (forall r :: r in h && r !in weak ==> h'[r] == h[r])
    && forall r :: r in h && r in weak ==>
         && h[r].Table? && h'[r].Table? && h'[r] == h[r].(entries := h'[r].entries)
         && |h'[r].entries| == |h[r].entries|
         && forall i :: 0 <= i < |h[r].entries| ==> ClearedEntry(h, m, h[r].entries[i], h'[r].entries[i])
  }

  predicate EntryMarked(m: Marks, e: Entry) {
    e.val.Nil? || (KeyMarked(m, e.key) && ValMarked(m, e.val))
  }

  ghost predicate TableCleared(h: Heap, m: Marks, o: Ref) {
    && o in h && h[o].Table? && ValMarked(m, h[o].mt)
    && forall i :: 0 <= i < |h[o].entries| ==> EntryMarked(m, h[o].entries[i])
  }

  /** Marking strings darkens them and nothing else. */
  ghost predicate StringsMarked(h: Heap, m: Marks, m': Marks) {
    m.Keys == m'.Keys && forall r :: r in m ==> m'[r] == m[r] || (r in h && h[r].String? && m[r].White? && m'[r].Gray?)
  }

  /** After the weak tables have been cleared nothing marked refers to anything white. */
  lemma ClearedIsClosed(h: Heap, m: Marks, h': Heap, m': Marks, grayagain: seq<Ref>, weak: seq<Ref>, r: Ref, k: Ref)
    requires AllDone(h, m, grayagain, weak) && ClearedHeap(h, m, h', weak) && StringsMarked(h, m, m')
    requires forall o :: o in weak ==> TableCleared(h', m', o)
    requires NonWhite(m', r) && r in h' && Holds(h', r, k)
    ensures NonWhite(m', k)
  {
    if r in weak {
      assert TableCleared(h', m', r);
      if h'[r].mt != Obj(k) {
        var e :| e in h'[r].entries && EntryHolds(e, k);
        var i :| 0 <= i < |h'[r].entries| && h'[r].entries[i] == e;
        assert EntryMarked(m', h'[r].entries[i]);
      }
    } else {
      assert h'[r] == h[r];
      ClearedUpValues(h, m, h', weak);
      if !h[r].String? {
        assert m[r] == m'[r];
        MarkedHolds(h, m, grayagain, weak, r, k);
      }
    }
  }

  lemma ClearedUpValues(h: Heap, m: Marks, h': Heap, weak: seq<Ref>)
    requires ClearedHeap(h, m, h', weak)
    ensures forall c: Cell :: UpValue(h', c) == UpValue(h, c)
  {
    forall c: Cell ensures UpValue(h', c) == UpValue(h, c) {
      if c.Open? && c.th in h {
        assert c.th in weak ==> h[c.th].Table? && h'[c.th].Table?;
      }
    }
  }
}
