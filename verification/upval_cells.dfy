/** Variables shared by closures: upvalues over the stacks of all threads behave like cells that
    closures refer to. */
module UpvalCells {
  import opened Shared
  import opened UpvalRing

  /** The simple picture: each variable is a cell; slot tells which cell each stack slot of each
      thread is now, up which cell each captured variable is. */
  datatype Cells = Cells(cells: seq<Value>, slot: seq<seq<int>>, up: seq<int>)

  /** What is given back for a read. */
  function CellOf(a: Cells, h: int): Value
    requires 0 <= h < |a.up| && 0 <= a.up[h] < |a.cells|
  {
    a.cells[a.up[h]]
  }

  predicate In<T>(s: seq<seq<T>>, t: int, i: int) { 0 <= t < |s| && 0 <= i < |s[t]| }

  /** The open lists of the threads, and the ring without its head. */
  datatype Links = Links(lists: seq<seq<int>>, ring: seq<int>)

  /** The list of a thread with n slots: in order, at most one upvalue for a slot. */
  ghost predicate ThreadList(uv: seq<UpVal>, t: int, p: int, list: seq<int>, n: int) {
    && OpenList(uv, p, list) && NoDup(list) && Descending(uv, list)
    && forall i :: i in list ==> uv[i].th == t && 0 <= uv[i].level < n
  }

  /** An open upvalue is in the list of its thread. */
  ghost predicate Listed(uv: seq<UpVal>, l: Links, i: int)
    requires 0 <= i < |uv| && uv[i].Open?
  {
    0 <= uv[i].th < |l.lists| && i in l.lists[uv[i].th]
  }

  ghost predicate AllListed(uv: seq<UpVal>, l: Links) {
    && (forall i :: i in l.ring <==> 0 < i < |uv| && uv[i].Open?)
    && (forall i :: 0 < i < |uv| && uv[i].Open? ==> Listed(uv, l, i))
  }

  /** The lists and the ring are in order and hold just the open upvalues. */
  ghost predicate Shape(sizes: seq<int>, uv: seq<UpVal>, heads: seq<int>, l: Links) {
    && |uv| > 0 && uv[HEAD].Open? && |sizes| == |heads| == |l.lists|
    && (forall t :: 0 <= t < |heads| ==> ThreadList(uv, t, heads[t], l.lists[t], sizes[t]))
    && Ring(uv, [HEAD] + l.ring) && AllListed(uv, l)
  }

  function Sizes(stacks: seq<seq<Value>>): seq<int> { seq(|stacks|, t requires 0 <= t < |stacks| => |stacks[t]|) }

  ghost predicate UpOk(uv: seq<UpVal>, u: int, a: Cells, c: int) {
    && 0 < u < |uv| && 0 <= c < |a.cells|
    && if uv[u].Open? then In(a.slot, uv[u].th, uv[u].level) && c == a.slot[uv[u].th][uv[u].level]
      else (forall t, i :: In(a.slot, t, i) ==> a.slot[t][i] != c) && a.cells[c] == uv[u].value
  }

  /** Every slot has a cell of its own, with its value. */
  ghost predicate SlotsOk(stacks: seq<seq<Value>>, a: Cells) {
    && |a.slot| == |stacks| && (forall t :: 0 <= t < |stacks| ==> |a.slot[t]| == |stacks[t]|)
    && (forall t, i :: In(a.slot, t, i) ==> 0 <= a.slot[t][i] < |a.cells| && a.cells[a.slot[t][i]] == stacks[t][i])
    && (forall t, i, r, j :: In(a.slot, t, i) && In(a.slot, r, j) && a.slot[t][i] == a.slot[r][j] ==> t == r && i == j)
  }

  /** The stacks and the upvalues stand for the cells. */
  ghost predicate Refines(stacks: seq<seq<Value>>, uv: seq<UpVal>, ups: seq<int>, a: Cells) {
    && SlotsOk(stacks, a) && |a.up| == |ups|
    && (forall h :: 0 <= h < |ups| ==> UpOk(uv, ups[h], a, a.up[h]))
    && (forall h, g :: 0 <= h < |ups| && 0 <= g < |ups| ==> (ups[h] == ups[g] <==> a.up[h] == a.up[g]))
  }

  // -------------------------------------------------- operations on the cells

  function SetCell(a: Cells, c: int, v: Value): Cells { if 0 <= c < |a.cells| then a.(cells := a.cells[c := v]) else a }

  function SetAt<T>(s: seq<seq<T>>, t: int, i: int, v: T): seq<seq<T>>
    requires In(s, t, i)
  {
    s[t := s[t][i := v]]
  }

  /** Slots of thread t from level on become new variables with the values they have. */
  function Renewed(a: Cells, stack: seq<Value>, t: int, level: nat): Cells {
    if 0 <= t < |a.slot| && level < |stack| == |a.slot[t]| then
      Cells(a.cells + stack[level..],
        a.slot[t := seq(|stack|, i requires 0 <= i < |stack| =>
          if i < level then a.slot[t][i] else |a.cells| + i - level)], a.up)
    else a
  }

  lemma SetSlots(stacks: seq<seq<Value>>, a: Cells, t: int, i: int, v: Value)
    requires SlotsOk(stacks, a) && In(stacks, t, i)
    ensures In(a.slot, t, i) && SlotsOk(SetAt(stacks, t, i, v), SetCell(a, a.slot[t][i], v))
  {
  }

  lemma SetRefines(stacks: seq<seq<Value>>, uv: seq<UpVal>, ups: seq<int>, a: Cells, t: int, i: int, v: Value)
    requires Refines(stacks, uv, ups, a) && In(stacks, t, i)
    ensures In(a.slot, t, i) && Refines(SetAt(stacks, t, i, v), uv, ups, SetCell(a, a.slot[t][i], v))
  {
    SetSlots(stacks, a, t, i, v);
    hide SlotsOk;
    var a' := SetCell(a, a.slot[t][i], v);
    forall h | 0 <= h < |ups| ensures UpOk(uv, ups[h], a', a'.up[h]) {
      assert UpOk(uv, ups[h], a, a.up[h]);
    }
  }

  /** Writing through a captured variable. */
  lemma SetUpRefines(stacks: seq<seq<Value>>, uv: seq<UpVal>, ups: seq<int>, a: Cells, h: int, v: Value)
    requires Refines(stacks, uv, ups, a) && 0 <= h < |ups|
    ensures var u := ups[h];
      && 0 < u < |uv| && 0 <= a.up[h] < |a.cells|
      && if uv[u].Open? then
           && In(stacks, uv[u].th, uv[u].level)
           && Refines(SetAt(stacks, uv[u].th, uv[u].level, v), uv, ups, SetCell(a, a.up[h], v))
         else Refines(stacks, uv[u := Closed(v)], ups, SetCell(a, a.up[h], v))
  {
    assert UpOk(uv, ups[h], a, a.up[h]);
    var u := ups[h];
    if uv[u].Open? {
      SetRefines(stacks, uv, ups, a, uv[u].th, uv[u].level, v);
    } else {
      SetClosedRefines(stacks, uv, ups, a, h, v);
    }
  }

  lemma SetClosedRefines(stacks: seq<seq<Value>>, uv: seq<UpVal>, ups: seq<int>, a: Cells, h: int, v: Value)
    requires Refines(stacks, uv, ups, a) && 0 <= h < |ups| && 0 < ups[h] < |uv| && !uv[ups[h]].Open?
    ensures Refines(stacks, uv[ups[h] := Closed(v)], ups, SetCell(a, a.up[h], v))
  {
    var a', uv' := SetCell(a, a.up[h], v), uv[ups[h] := Closed(v)];
    assert UpOk(uv, ups[h], a, a.up[h]);
    forall g | 0 <= g < |ups| ensures UpOk(uv', ups[g], a', a'.up[g]) {
      assert UpOk(uv, ups[g], a, a.up[g]);
      assert ups[g] == ups[h] <==> a.up[g] == a.up[h];
    }
  }

  /** Another name for a captured variable. */
  lemma AliasRefines(stacks: seq<seq<Value>>, uv: seq<UpVal>, ups: seq<int>, a: Cells, h: int)
    requires Refines(stacks, uv, ups, a) && 0 <= h < |ups|
    ensures Refines(stacks, uv, ups + [ups[h]], a.(up := a.up + [a.up[h]]))
  {
    var ups', a' := ups + [ups[h]], a.(up := a.up + [a.up[h]]);
    forall g | 0 <= g < |ups'| ensures UpOk(uv, ups'[g], a', a'.up[g]) {
      var o := if g < |ups| then g else h;
      assert UpOk(uv, ups[o], a, a.up[o]);
    }
  }

  /** Capturing a slot: u is the upvalue that stands for it. */
  lemma CaptureRefines(stacks: seq<seq<Value>>, uv: seq<UpVal>, ups: seq<int>, a: Cells, t: int, i: int, u: int)
    requires Refines(stacks, uv, ups, a) && In(stacks, t, i)
    requires 0 < u < |uv| && uv[u].Open? && uv[u].th == t && uv[u].level == i
    requires forall x :: 0 < x < |uv| && uv[x].Open? && uv[x].th == t && uv[x].level == i ==> x == u
    ensures In(a.slot, t, i) && Refines(stacks, uv, ups + [u], a.(up := a.up + [a.slot[t][i]]))
  {
    assert In(a.slot, t, i);
    var ups', a' := ups + [u], a.(up := a.up + [a.slot[t][i]]);
    forall g | 0 <= g < |ups'| ensures UpOk(uv, ups'[g], a', a'.up[g]) {
      if g < |ups| { assert UpOk(uv, ups[g], a, a.up[g]); }
    }
    forall g | 0 <= g < |ups| ensures ups[g] == u <==> a.up[g] == a.slot[t][i] {
      assert UpOk(uv, ups[g], a, a.up[g]);
    }
  }

  /** More upvalues, and other links, do not matter. */
  lemma LinksRefine(stacks: seq<seq<Value>>, uv: seq<UpVal>, uv': seq<UpVal>, ups: seq<int>, a: Cells)
    requires Refines(stacks, uv, ups, a) && |uv| <= |uv'|
    requires forall u :: 0 < u < |uv| ==> SameUpval(uv[u], uv'[u])
    ensures Refines(stacks, uv', ups, a)
  {
    hide SlotsOk;
    forall h | 0 <= h < |ups| ensures UpOk(uv', ups[h], a, a.up[h]) {
      assert UpOk(uv, ups[h], a, a.up[h]);
    }
  }

  /** The same but for links. */
  ghost predicate SameUpval(x: UpVal, y: UpVal) {
    if x.Open? then y.Open? && y.th == x.th && y.level == x.level else y == x
  }

  /** What closing the upvalues of thread t from level on makes of an upvalue. */
  ghost predicate ClosedFrom(x: UpVal, y: UpVal, stack: seq<Value>, t: int, level: nat) {
    if x.Open? && x.th == t && level <= x.level < |stack| then y == Closed(stack[x.level]) else SameUpval(x, y)
  }

  lemma RenewedSlots(stacks: seq<seq<Value>>, a: Cells, t: int, level: nat)
    requires SlotsOk(stacks, a) && 0 <= t < |stacks| && level < |stacks[t]|
    ensures var a' := Renewed(a, stacks[t], t, level);
      && a'.cells == a.cells + stacks[t][level..] && a'.up == a.up && |a'.slot| == |a.slot|
      && (forall r :: 0 <= r < |a.slot| ==> |a'.slot[r]| == |a.slot[r]|)
      && (forall r, i :: In(a'.slot, r, i) ==>
           && In(a.slot, r, i)
           && a'.slot[r][i] == if r == t && i >= level then |a.cells| + i - level else a.slot[r][i])
  {
  }

  lemma RenewSlots(stacks: seq<seq<Value>>, a: Cells, t: int, level: nat)
    requires SlotsOk(stacks, a) && 0 <= t < |stacks|
    ensures SlotsOk(stacks, Renewed(a, stacks[t], t, level))
  {
    var a' := Renewed(a, stacks[t], t, level);
    if level < |stacks[t]| {
      RenewedSlots(stacks, a, t, level);
      hide Renewed;
      forall r, i, q, j | In(a'.slot, r, i) && In(a'.slot, q, j) && a'.slot[r][i] == a'.slot[q][j]
          ensures r == q && i == j {
        RenewedApart(stacks, a, r, i, q, j);
      }
    }
  }

  lemma RenewedApart(stacks: seq<seq<Value>>, a: Cells, r: int, i: int, q: int, j: int)
    requires SlotsOk(stacks, a) && In(a.slot, r, i) && In(a.slot, q, j)
    ensures 0 <= a.slot[r][i] < |a.cells| && (a.slot[r][i] == a.slot[q][j] ==> r == q && i == j)
  {
  }

  /** Once no upvalue is open from level on, those slots may become new variables. */
  lemma RenewRefines(stacks: seq<seq<Value>>, uv: seq<UpVal>, uv': seq<UpVal>, ups: seq<int>, a: Cells, t: int,
      level: nat)
    requires Refines(stacks, uv, ups, a) && |uv'| == |uv| && 0 <= t < |stacks|
    requires forall u :: 0 < u < |uv| ==> ClosedFrom(uv[u], uv'[u], stacks[t], t, level)
    ensures Refines(stacks, uv', ups, Renewed(a, stacks[t], t, level))
  {
    RenewSlots(stacks, a, t, level);
    var a' := Renewed(a, stacks[t], t, level);
    forall h | 0 <= h < |ups| ensures UpOk(uv', ups[h], a', a'.up[h]) {
      assert UpOk(uv, ups[h], a, a.up[h]);
      RenewUp(stacks, uv, uv', ups[h], a, a.up[h], t, level);
    }
  }

  lemma RenewUp(stacks: seq<seq<Value>>, uv: seq<UpVal>, uv': seq<UpVal>, u: int, a: Cells, c: int, t: int, level: nat)
    requires SlotsOk(stacks, a) && UpOk(uv, u, a, c) && |uv'| == |uv| && 0 <= t < |stacks|
    requires ClosedFrom(uv[u], uv'[u], stacks[t], t, level)
    ensures UpOk(uv', u, Renewed(a, stacks[t], t, level), c)
  {
    var a' := Renewed(a, stacks[t], t, level);
    if level < |stacks[t]| {
      RenewedSlots(stacks, a, t, level);
      hide Renewed;
    }
  }
}
