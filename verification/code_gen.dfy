/** The code generator (lcode.c) for expressions, as luaK_infix, luaK_posfix and subexpr
    (lparser.c) drive it. */
module CodeGen {
  import opened Shared
  import opened CodeVm
  import opened CodeLists
  import opened CodeFlow
  import opened CodeSem
  import opened CodeEmit
  import opened CodeOps
  import opened CodeNil
  import opened CodeClose
  import opened CodeJoin
  import opened CodeCompare
  import opened CodeValues
  import opened CodeSteps

  /** Constants with a larger index do not fit an operand. */
  const MAXINDEXRK := 255

  lemma {:induction false} ListAt(c: seq<Instr>, l: int, s: seq<int>, i: nat)
    requires IsList(c, l, s) && i < |s|
    ensures 0 <= s[i] < |c| && c[s[i]].Jmp? && Next(c, s[i]) == if i + 1 < |s| then s[i + 1] else NO_JUMP
    decreases |s|
  {
    if i > 0 {
      ListAt(c, Next(c, l), s[1..], i - 1);
    } else if |s| > 1 {
      assert s[1..][0] == s[1];
    }
  }

  lemma ListIs(c: seq<Instr>, l: int, s: seq<int>)
    requires ListOk(c, l, s)
    ensures IsList(c, l, s)
  {
  }

  /** Walking a list: list is its i-th jump. */
  ghost predicate Cursor(c: seq<Instr>, s: seq<int>, i: int, list: int) {
    && 0 <= i <= |s|
    && if i == |s| then list == NO_JUMP
       else
         && list == s[i] && 0 <= list < |c| && c[list].Jmp?
         && Next(c, list) == if i + 1 < |s| then s[i + 1] else NO_JUMP
  }

  lemma CursorAt(c: seq<Instr>, l: int, s: seq<int>, i: nat)
    requires IsList(c, l, s) && i <= |s|
    ensures Cursor(c, s, i, if i < |s| then s[i] else NO_JUMP)
  {
    if i < |s| {
      ListAt(c, l, s, i);
    }
  }

  /** c is c0 with the first i jumps of s patched. */
  ghost predicate Patching(c0: seq<Instr>, c: seq<Instr>, s: seq<int>, i: int, vtarget: int, reg: int, dtarget: int) {
    && 0 <= i <= |s| && |c| == |c0| && NoDup(s) && AreJumps(c, s[i..])
    && (forall n :: n in s[i..] ==> 0 <= n < |c| && c[n] == c0[n] && HasTestSet(c, n) == HasTestSet(c0, n))
    && Patched(c, s[i..], vtarget, reg, dtarget) == Patched(c0, s, vtarget, reg, dtarget)
  }

  lemma PatchingNext(c0: seq<Instr>, c: seq<Instr>, s: seq<int>, i: int, vtarget: int, reg: int, dtarget: int)
    requires Patching(c0, c, s, i, vtarget, reg, dtarget) && i < |s|
    ensures 0 <= s[i] < |c| && c[s[i]] == c0[s[i]] && HasTestSet(c, s[i]) == HasTestSet(c0, s[i])
    ensures Patching(c0, PatchOne(c, s[i], vtarget, reg, dtarget), s, i + 1, vtarget, reg, dtarget)
  {
    assert s[i..][0] == s[i] && s[i] in s[i..] && s[i..][1..] == s[i + 1..];
    PatchStep(c, s[i..], vtarget, reg, dtarget);
    var c1 := PatchOne(c, s[i], vtarget, reg, dtarget);
    hide Patched;
    forall n | n in s[i + 1..] ensures 0 <= n < |c1| && c1[n] == c0[n] && HasTestSet(c1, n) == HasTestSet(c0, n) {
      assert n in s[i..] && n != s[i];
    }
  }

  lemma PatchingDone(c0: seq<Instr>, c: seq<Instr>, s: seq<int>, vtarget: int, reg: int, dtarget: int)
    requires Patching(c0, c, s, |s|, vtarget, reg, dtarget)
    ensures c == Patched(c0, s, vtarget, reg, dtarget)
  {
    assert s[|s|..] == [];
    assert Patched(c, [], vtarget, reg, dtarget) == c;
  }

  lemma PatchingStart(c: seq<Instr>, l: int, s: seq<int>, vtarget: int, reg: int, dtarget: int)
    requires ListOk(c, l, s)
    ensures Patching(c, c, s, 0, vtarget, reg, dtarget)
  {
    ListJumps(c, l, s);
    assert s[0..] == s;
  }

  lemma UnsetTail(c: seq<Instr>, tail: seq<Instr>, ts: seq<int>, fs: seq<int>)
    requires forall n :: n in ts || n in fs ==> n < |c|
    ensures Unset(Unset(c + tail, ts), fs) == Unset(c, ts + fs) + tail
  {
  }

  class FuncState {
    var code: seq<Instr>
    var jpc: int
    var lasttarget: int
    var k: seq<Value>
    var h: map<Value, nat>
    var freereg: int
    var nactvar: int
    var maxstack: int
    ghost var jps: seq<int>

    ghost function View(): Gen
      reads this
    {
      Gen(code, jpc, jps, k, freereg, nactvar, maxstack, lasttarget)
    }

    /** h finds constants again. */
    ghost predicate Valid()
      reads this
    {
      forall v :: v in h ==> h[v] < |k| && k[h[v]] == v
    }

    // ------------------------------------------------------------ jump lists

    method FixJump(pc: int, dest: int)
      requires 0 <= pc < |code| && code[pc].Jmp? && dest != NO_JUMP && dest != pc
      modifies this`code
      ensures code == old(code)[pc := Jmp(dest - (pc + 1))] && Next(code, pc) == dest
    {
      var offset := dest - (pc + 1);
      code := code[pc := Jmp(offset)];
    }

    method Concat(l1: int, l2: int, ghost s1: seq<int>, ghost s2: seq<int>) returns (l: int)
      requires ListOk(code, l1, s1) && ListOk(code, l2, s2) && Disjoint(s1, s2)
      modifies this`code
      ensures l == ConcatHead(l1, l2) && code == ConcatCode(old(code), s1, l2, s2) && ListOk(code, l, s1 + s2)
    {
      ListJumps(code, l1, s1);
      ListJumps(code, l2, s2);
      ConcatOk(code, l1, s1, l2, s2);
      if l2 == NO_JUMP {
        return l1;
      } else if l1 == NO_JUMP {
        return l2;
      } else {
        var list := l1;
        ghost var i := 0;
        CursorAt(code, l1, s1, 0);
        while Next(code, list) != NO_JUMP
          invariant i < |s1| && Cursor(code, s1, i, list) && code == old(code)
          decreases |s1| - i
        {
          CursorAt(code, l1, s1, i + 1);
          list := Next(code, list);
          i := i + 1;
        }
        assert i == |s1| - 1 by { CursorAt(code, l1, s1, i + 1); }
        assert list in s1 && l2 in s2;
        FixJump(list, l2);
        l := l1;
      }
    }

    method NeedValue(l: int, ghost s: seq<int>) returns (b: bool)
      requires ListOk(code, l, s)
      ensures b <==> exists n :: n in s && !HasTestSet(code, n)
    {
      ghost var i := 0;
      var list := l;
      CursorAt(code, l, s, 0);
      while list != NO_JUMP
        invariant Cursor(code, s, i, list) && forall j :: 0 <= j < i ==> HasTestSet(code, s[j])
        decreases |s| - i
      {
        if !(list >= 1 && code[list - 1].TestSet?) {
          assert list in s && !HasTestSet(code, list);
          return true;
        }
        CursorAt(code, l, s, i + 1);
        list := Next(code, list);
        i := i + 1;
      }
      return false;
    }

    method PatchTestReg(node: int, reg: int) returns (b: bool)
      requires 0 <= node < |code|
      modifies this`code
      ensures b == HasTestSet(old(code), node)
      ensures code == if b then old(code)[node - 1 := Retest(old(code)[node - 1], reg)] else old(code)
    {
      if !(node >= 1 && code[node - 1].TestSet?) {
        return false;
      }
      var i := code[node - 1];
      if reg != NO_REG && reg != i.b {
        code := code[node - 1 := TestSet(reg, i.b, i.c)];
      } else {
        code := code[node - 1 := Test(i.b, i.c)];
      }
      return true;
    }

    method RemoveValues(l: int, ghost s: seq<int>)
      requires ListOk(code, l, s)
      modifies this`code
      ensures code == Unset(old(code), s)
    {
      ghost var i := 0;
      var list := l;
      CursorAt(code, l, s, 0);
      assert code == Unset(code, s[..0]);
      while list != NO_JUMP
        invariant Cursor(old(code), s, i, list) && code == Unset(old(code), s[..i])
        decreases |s| - i
      {
        assert forall n :: n in s[..i + 1] <==> n in s[..i] || n == s[i];
        var b := PatchTestReg(list, NO_REG);
        assert code == Unset(old(code), s[..i + 1]);
        CursorAt(old(code), l, s, i + 1);
        list := Next(code, list);
        i := i + 1;
      }
      assert s[..i] == s;
    }

    method PatchListAux(l: int, vtarget: int, reg: int, dtarget: int, ghost s: seq<int>)
      requires ListOk(code, l, s) && forall n :: n in s ==> Target(code, n, vtarget, dtarget) !in {NO_JUMP, n}
      modifies this`code
      ensures code == Patched(old(code), s, vtarget, reg, dtarget)
    {
      ghost var i := 0;
      var list := l;
      CursorAt(code, l, s, 0);
      PatchingStart(code, l, s, vtarget, reg, dtarget);
      hide Patching, ListOk, Patched;
      while list != NO_JUMP
        invariant Cursor(old(code), s, i, list) && Patching(old(code), code, s, i, vtarget, reg, dtarget)
        decreases |s| - i
      {
        PatchingNext(old(code), code, s, i, vtarget, reg, dtarget);
        ghost var c := code;
        var next := Next(code, list);
        assert list in s;
        var b := PatchTestReg(list, reg);
        FixJump(list, if b then vtarget else dtarget);
        assert code == PatchOne(c, s[i], vtarget, reg, dtarget);
        CursorAt(old(code), l, s, i + 1) by { ListIs(old(code), l, s); }
        list := next;
        i := i + 1;
      }
      PatchingDone(old(code), code, s, vtarget, reg, dtarget);
    }

    /** luaK_getlabel */
    method GetLabel() returns (pc: int)
      modifies this`lasttarget
      ensures pc == lasttarget == |code|
    {
      lasttarget := |code|;
      return |code|;
    }

    method DischargeJpc()
      requires ListOk(code, jpc, jps)
      modifies this`code, this`jpc, this`jps
      ensures View() == LandedState(old(View()))
    {
      ListJumps(code, jpc, jps);
      PatchListAux(jpc, |code|, NO_REG, |code|, jps);
      jpc, jps := NO_JUMP, [];
    }

    /** luaK_code */
    method Code(i: Instr) returns (pc: int)
      requires ListOk(code, jpc, jps)
      modifies this`code, this`jpc, this`jps
      ensures pc == |old(code)| && View() == old(View()).(c := Landed(old(View())) + [i], jpc := NO_JUMP, jps := [])
    {
      DischargeJpc();
      pc := |code|;
      code := code + [i];
    }

    /** luaK_jump: jumps waiting for this place will go with the new one. */
    method Jump() returns (j: int)
      requires ListOk(code, jpc, jps)
      modifies this`code, this`jpc, this`jps
      ensures j == |old(code)| && |code| == j + 1 && code[..j] == old(code) && code[j].Jmp?
        && ListOk(code, j, [j] + old(jps))
      ensures View() == old(View()).(c := code, jpc := NO_JUMP, jps := [])
      ensures old(jps) == [] ==> code[j] == Jmp(NO_JUMP)
    {
      var saved, c0 := jpc, code;
      ghost var savedps := jps;
      ListJumps(code, jpc, jps);
      jpc, jps := NO_JUMP, [];
      j := Code(Jmp(NO_JUMP));
      assert code == c0 + [Jmp(NO_JUMP)];
      assert [j][1..] == [] && IsList(code, j, [j]);
      ListFrame(c0, code, saved, savedps);
      j := Concat(j, saved, [j], savedps);
    }

    method CondJump(i: Instr) returns (j: int)
      requires ListOk(code, jpc, jps)
      modifies this`code, this`jpc, this`jps
      ensures j == |old(code)| + 1
      ensures View() == old(View()).(c := Landed(old(View())) + [i, Jmp(NO_JUMP)], jpc := NO_JUMP, jps := [])
    {
      var at := Code(i);
      assert ListOk(code, jpc, jps);
      j := Jump();
      assert code == code[..j] + [code[j]];
    }

    method PatchToHere(l: int, ghost s: seq<int>)
      requires ListOk(code, jpc, jps) && ListOk(code, l, s) && Disjoint(jps, s)
      modifies this`code, this`jpc, this`jps, this`lasttarget
      ensures View() == old(View()).(c := ConcatCode(old(code), old(jps), l, s), jpc := ConcatHead(old(jpc), l),
        jps := old(jps) + s, last := |old(code)|)
      ensures ListOk(code, jpc, jps)
    {
      var here := GetLabel();
      jpc := Concat(jpc, l, jps, s);
      jps := jps + s;
    }

    // ------------------------------------------------ registers and constants

    method ReserveRegs(n: nat)
      modifies this`freereg, this`maxstack
      ensures freereg == old(freereg) + n && maxstack == if freereg > old(maxstack) then freereg else old(maxstack)
    {
      if freereg + n > maxstack {
        maxstack := freereg + n;
      }
      freereg := freereg + n;
    }

    method FreeExp(e: Exp)
      requires e.k.VNonReloc? && e.k.r >= nactvar ==> e.k.r == freereg - 1
      modifies this`freereg
      ensures freereg == if e.k.VNonReloc? && e.k.r >= nactvar then e.k.r else old(freereg)
    {
      if e.k.VNonReloc? && e.k.r >= nactvar {
        freereg := freereg - 1;
      }
    }

    method AddK(v: Value) returns (i: nat)
      requires Valid()
      modifies this`k, this`h
      ensures Valid() && i < |k| && i <= |old(k)| && k[i] == v && old(k) <= k
    {
      if v in h {
        return h[v];
      }
      i := |k|;
      h := h[v := i];
      k := k + [v];
    }

    /** luaK_nil */
    method LoadNils(from: int, n: nat)
      requires ListOk(code, jpc, jps)
      modifies this`code, this`jpc, this`jps
      ensures var c, last := old(code), from + n - 1;
        if |c| > lasttarget && c == [] && from >= nactvar then View() == old(View())
        else if |c| > lasttarget && c != [] && c[|c| - 1].LoadNil? && c[|c| - 1].a <= from <= c[|c| - 1].b + 1 then
          View() == old(View()).(c := c[|c| - 1 := Stretched(c[|c| - 1], last)])
        else View() == old(View()).(c := Landed(old(View())) + [LoadNil(from, last)], jpc := NO_JUMP, jps := [])
    {
      if |code| > lasttarget {
        if code == [] {
          if from >= nactvar {
            return;
          }
        } else {
          var previous := code[|code| - 1];
          if previous.LoadNil? {
            if previous.a <= from && from <= previous.b + 1 {
              if from + n - 1 > previous.b {
                code := code[|code| - 1 := LoadNil(previous.a, from + n - 1)];
              }
              return;
            }
          }
        }
      }
      var pc := Code(LoadNil(from, from + n - 1));
    }

    // --------------------------------------------- values, variables, registers

    /** luaK_dischargevars; fr is the first free register as far as the expression goes. */
    method DischargeVars(e: Exp, ghost x: Ctx, ghost fr: int) returns (d: Exp)
      requires Good(x, View().(freereg := fr), e)
      modifies this`code, this`jpc, this`jps
      ensures Good(x, View().(freereg := fr), d) && Kept(x, old(View()).(freereg := fr), e, View().(freereg := fr), d)
      ensures d == e.(k := d.k) && !d.k.VLocal? && !d.k.VUpval?
        && (d.k == VNonReloc(x.base) || d.k.VJmp? ==> e.k == d.k)
      ensures !e.k.VLocal? && !e.k.VUpval? ==> d == e && View() == old(View())
      ensures k == old(k) && freereg == old(freereg) && maxstack == old(maxstack)
    {
      ghost var s := View().(freereg := fr);
      GoodLists(x, s, e);
      LocalIsBelow(x, s, e);
      hide Good, Kept, ListOk, Landed;
      if e.k.VLocal? {
        d := e.(k := VNonReloc(e.k.r));
        LocalOk(x, s, e);
      } else if e.k.VUpval? {
        var pc := Code(GetUpval(0, e.k.u));
        d := e.(k := VReloc(pc));
        UpvalOk(x, s, e);
        assert View().(freereg := fr) == Emitted(s, GetUpval(0, e.k.u)) by { LandedFrees(old(View()), fr); }
      } else {
        d := e;
        KeptSame(x, s, e);
      }
    }

    /** The expression, whose value is not in a jump, goes to register reg. */
    method Discharge2Reg(e: Exp, reg: int, ghost x: Ctx) returns (d: Exp)
      requires Valid() && reg == x.base == freereg - 1 && freereg <= maxstack && Good(x, Held(x, View(), e.k), e)
      modifies this`code, this`jpc, this`jps, this`k, this`h
      ensures Valid()
      ensures e.k.VJmp? ==> d == e && View() == old(View())
      ensures !e.k.VJmp? ==> d == e.(k := VNonReloc(reg)) && Good(x, View(), d) && Kept(x, Held(x, old(View()), e.k),
        e, View(), d)
      ensures freereg == old(freereg) && maxstack == old(maxstack)
    {
      ghost var s0 := Held(x, View(), e.k);
      ghost var fr := s0.freereg;
      hide Good, Kept, ListOk, Landed, Loads;
      d := DischargeVars(e, x, fr);
      ghost var s, e1 := View().(freereg := fr), d;
      if d.k.VJmp? {
        return;
      }
      PutInReg(d, reg, x, s);
      d := d.(k := VNonReloc(reg));
      KeptTrans(x, s0, e, s, e1, View(), d);
    }

    /** The switch of discharge2reg; s is the state before register reg was reserved. */
    method PutInReg(d: Exp, reg: int, ghost x: Ctx, ghost s: Gen)
      requires Valid() && s == View().(freereg := s.freereg) && Good(x, s, d) && !d.k.VJmp? && !d.k.VLocal?
        && !d.k.VUpval?
      requires reg == x.base == freereg - 1 && freereg <= maxstack && s == Held(x, View(), d.k)
      modifies this`code, this`jpc, this`jps, this`k, this`h
      ensures Valid() && freereg == old(freereg) && maxstack == old(maxstack)
      ensures Good(x, View(), d.(k := VNonReloc(reg))) && Kept(x, s, d, View(), d.(k := VNonReloc(reg)))
    {
      hide Good, Kept, ListOk, Landed, Loads;
      match d.k
      case VNil => PutNil(d, x, s);
      case VReloc(_) => PutReloc(d, x, s);
      case VNonReloc(r) =>
        if reg != r {
          PutValue(Move(reg, r), d, x, s);
        } else {
          KeptSame(x, s, d);
        }
      case VTrue => PutValue(LoadBool(reg, true, false), d, x, s);
      case VFalse => PutValue(LoadBool(reg, false, false), d, x, s);
      case VK(n) => PutValue(LoadK(reg, n), d, x, s);
      case VKNum(v) =>
        var n := AddK(v);
        PutValue(LoadK(reg, n), d, x, s);
      case _ =>
        OnlyJmp(x, s, d);
    }

    method PutNil(d: Exp, ghost x: Ctx, ghost s: Gen)
      requires Valid() && View() == s.(freereg := x.base + 1) && Good(x, s, d) && x.base < maxstack && d.k == VNil
      modifies this`code, this`jpc, this`jps
      ensures Valid() && freereg == old(freereg) && maxstack == old(maxstack)
      ensures Good(x, View(), d.(k := VNonReloc(x.base))) && Kept(x, s, d, View(), d.(k := VNonReloc(x.base)))
    {
      hide Good, Kept, ListOk, Landed;
      GoodLists(x, s, d);
      LandedKs(s, View());
      LoadNils(freereg - 1, 1);
      NilStep(x, s, d, View());
    }

    method PutReloc(d: Exp, ghost x: Ctx, ghost s: Gen)
      requires Valid() && View() == s.(freereg := x.base + 1) && Good(x, s, d) && x.base < maxstack && d.k.VReloc?
      modifies this`code
      ensures Valid() && freereg == old(freereg) && maxstack == old(maxstack)
      ensures Good(x, View(), d.(k := VNonReloc(x.base))) && Kept(x, s, d, View(), d.(k := VNonReloc(x.base)))
    {
      hide Good, Kept, Wf, Judge, Landed;
      RelocParts(x, s, d);
      code := code[d.k.pc := WithA(code[d.k.pc], freereg - 1)];
      RelocStep(x, s, d, View());
    }

    /** One instruction puts the value in its register. */
    method PutValue(i: Instr, d: Exp, ghost x: Ctx, ghost s: Gen)
      requires Valid() && View() == s.(k := k, freereg := x.base + 1) && s.k <= k && Good(x, s, d) && x.base < maxstack
      requires
        || (d.k == VTrue && i == LoadBool(x.base, true, false))
        || (d.k == VFalse && i == LoadBool(x.base, false, false))
        || (d.k.VK? && i == LoadK(x.base, d.k.n))
        || (d.k.VKNum? && i.LoadK? && i.a == x.base && i.k < |k| && k[i.k] == d.k.v)
        || (d.k.VNonReloc? && i == Move(x.base, d.k.r))
      modifies this`code, this`jpc, this`jps
      ensures Valid() && freereg == old(freereg) && maxstack == old(maxstack)
      ensures Good(x, View(), d.(k := VNonReloc(x.base))) && Kept(x, s, d, View(), d.(k := VNonReloc(x.base)))
    {
      hide Good, Kept, ListOk, Landed, Loads;
      GoodLists(x, s, d);
      LoadsFor(x, s, d, i, k);
      LandedKs(s, View());
      var pc := Code(i);
      LoadStep(x, s, d, i, View());
    }

    method Discharge2AnyReg(e: Exp, ghost x: Ctx) returns (d: Exp)
      requires Valid() && Good(x, View(), e) && !e.k.VJmp?
      modifies this`code, this`jpc, this`jps, this`k, this`h, this`freereg, this`maxstack
      ensures Valid() && d == e.(k := d.k) && d.k.VNonReloc? && Good(x, View(), d) && Kept(x, old(View()), e, View(), d)
    {
      ghost var s := View();
      hide Good, Kept;
      if !e.k.VNonReloc? {
        FreeIsBase(x, s, e);
        ReserveRegs(1);
        GoodGrow(x, s, e, Held(x, View(), e.k));
        d := Discharge2Reg(e, freereg - 1, x);
        KeptTrans(x, s, e, s.(max := maxstack), e, View(), d);
      } else {
        d := e;
        KeptSame(x, s, e);
      }
    }

    // ------------------------------------------------------------- exp2reg

    method CodeLabel(a: int, b: bool, jump: bool) returns (pc: int)
      requires jps == [] && jpc == NO_JUMP
      modifies this`code, this`jpc, this`jps, this`lasttarget
      ensures pc == |old(code)| && View() == old(View()).(c := old(code) + [LoadBool(a, b, jump)], last := pc)
    {
      LandedNone(View());
      assert ListOk(code, jpc, jps);
      var here := GetLabel();
      LandedNone(View());
      pc := Code(LoadBool(a, b, jump));
    }

    /** Instructions that load false and true, jumped around unless control only gets there
        when the value is false (isjmp). */
    method LoadEither(isjmp: bool, reg: int) returns (pf: int, pt: int)
      requires ListOk(code, jpc, jps) && (isjmp ==> jps == [])
      modifies this`code, this`jpc, this`jps, this`lasttarget
      ensures ListOk(code, jpc, jps) && View() == old(View()).(c := code, jpc := jpc, jps := jps, last := |code|)
      ensures var n := |old(code)|;
        && |code| >= n && code[..n] == old(code) && pt == pf + 1 && |code| == pf + 2
        && pf == (if isjmp then n else n + 1)
        && code[pf..] == [LoadBool(reg, false, true), LoadBool(reg, true, false)] && (!isjmp ==> code[n].Jmp?)
        && jps == if isjmp then [] else [n] + old(jps)
    {
      ListNone(code, jpc, jps);
      var fj := NO_JUMP;
      ghost var fjs: seq<int> := [];
      hide ListOk;
      ghost var s := View();
      if !isjmp {
        fj := Jump();
        fjs := [fj] + s.jps;
      }
      ghost var c1 := code;
      assert ListOk(c1, fj, fjs);
      pf := CodeLabel(reg, false, true);
      pt := CodeLabel(reg, true, false);
      ListPrefix(c1, code, fj, fjs);
      ListEmpty(code);
      PatchToHere(fj, fjs);
    }

    method PatchBoth(t: int, f: int, final: int, reg: int, pf: int, pt: int, ghost ts: seq<int>, ghost fs: seq<int>)
      requires ListOk(code, t, ts) && ListOk(code, f, fs) && Disjoint(ts, fs)
      requires forall n :: n in fs ==> n < Target(code, n, final, pf)
      requires forall n, c :: n in ts && HasTestSet(c, n) == HasTestSet(code, n) ==> n < Target(c, n, final, pt)
      modifies this`code
      ensures code == Patched(Patched(old(code), fs, final, reg, pf), ts, final, reg, pt)
    {
      ListNone(code, f, fs);
      ListJumps(code, t, ts);
      assert forall n :: n in ts ==> 0 <= n;
      hide ListOk, Patched;
      PatchedList(code, fs, ts, t, final, reg, pf);
      PatchListAux(f, final, reg, pf, fs);
      PatchListAux(t, final, reg, pt, ts);
    }

    /** The value of an expression with jumps is put together in register reg: s and e1 are the
        state and descriptor as seen in the proof, isjmp tells that falling through means false. */
    method JoinValues(t: int, f: int, isjmp: bool, reg: int, ghost x: Ctx, ghost s: Gen, ghost e1: Exp)
      requires View() == s.(freereg := x.base + 1) && reg == x.base < s.max && Wf(x, s, e1) && Judge(x, s, e1)
      requires e1.t == t && e1.f == f && e1.k == (if isjmp then VFalse else VNonReloc(reg))
        && (isjmp ==> s.jps == [] && exists n :: n in e1.ts && !HasTestSet(s.c, n))
      modifies this`code, this`jpc, this`jps, this`lasttarget
      ensures Good(x, View(), InBase(x)) && Frame(s.c, code, x.outer)
      ensures View() == s.(c := code, jpc := jpc, jps := jps, last := lasttarget, freereg := x.base + 1)
    {
      hide Good, Wf, Judge, Frame, ListsOk, Landed, ListOk, CodeOk, RegsOk;
      WfLists(x, s, e1);
      ListsAre(x, s, e1);
      var pf, pt := NO_JUMP, NO_JUMP;
      var need := NeedValue(t, e1.ts);
      if !need {
        need := NeedValue(f, e1.fs);
      }
      if need {
        pf, pt := LoadEither(isjmp, reg);
      }
      ghost var tail := code[|s.c|..];
      assert code == s.c + tail;
      var final := GetLabel();
      ghost var g := Goals(reg, final, pf, pt);
      ShapeIs(x, s, e1, g, tail, jps, isjmp, need, code);
      hide Shape;
      ghost var w := View();
      ListPrefix(s.c, code, f, e1.fs);
      ListPrefix(s.c, code, t, e1.ts);
      ShapeTargets(x, s, e1, g, tail, jps);
      PatchBoth(t, f, final, reg, pf, pt, e1.ts, e1.fs);
      ClosingOk(x, s, e1, g, tail, w, View());
    }

    method Exp2Reg(e: Exp, reg: int, ghost x: Ctx) returns (d: Exp)
      requires Valid() && reg == x.base == freereg - 1 && freereg <= maxstack && Good(x, Held(x, View(), e.k), e)
      modifies this`code, this`jpc, this`jps, this`k, this`h, this`lasttarget
      ensures Valid() && d == InBase(x) && Good(x, View(), d) && Kept(x, Held(x, old(View()), e.k), e, View(), d)
      ensures freereg == old(freereg) && maxstack == old(maxstack)
    {
      ghost var s0 := Held(x, View(), e.k);
      hide Good, Kept, Wf, Judge, ListsOk, Frame, ListOk, ConcatCode;
      d := Discharge2Reg(e, reg, x);
      ghost var s, e1 := View(), d;
      if d.k.VJmp? {
        JmpStep(x, s0, e);
        var t := Concat(d.t, d.k.pc, d.ts, [d.k.pc]);
        d := d.(t := t, ts := d.ts + [d.k.pc]);
        s, e1 := s0.(c := code), BranchExp(Bare(s0, e), e, true, VFalse);
        assert e.k.pc in e1.ts;
      } else {
        GoodPlain(x, s, d);
        BaseBelowMax(x, s, d);
      }
      WfLists(x, s, e1);
      NoJumps(x, s, e1);
      var isjmp := d.k.VJmp?;
      if d.t != d.f {
        JoinValues(d.t, d.f, isjmp, reg, x, s, e1);
      }
      d := Exp(VNonReloc(reg), NO_JUMP, NO_JUMP, [], []);
      if isjmp {
        KeptFrom(x, s0, e, s, View(), d);
      } else {
        KeptOn(x, s0, e, s, e1, View(), d);
      }
    }

    /** luaK_exp2nextreg */
    method Exp2NextReg(e: Exp, ghost x: Ctx) returns (d: Exp)
      requires Valid() && Good(x, View(), e)
      modifies this
      ensures Valid() && d == InBase(x) && Good(x, View(), d) && Kept(x, old(View()), e, View(), d)
        && freereg == x.base + 1
    {
      ghost var s0 := View();
      hide Good, Kept;
      d := DischargeVars(e, x, freereg);
      ghost var s, e1 := View(), d;
      FreeIsBase(x, s, d);
      FreeExp(d);
      ReserveRegs(1);
      GoodGrow(x, s, e1, Held(x, View(), d.k));
      d := Exp2Reg(d, freereg - 1, x);
      KeptTrans(x, s0, e, s, e1, s.(max := maxstack), e1);
      KeptTrans(x, s0, e, s.(max := maxstack), e1, View(), d);
    }

    /** luaK_exp2anyreg; the value is then in register d.k.r. */
    method Exp2AnyReg(e: Exp, ghost x: Ctx) returns (d: Exp)
      requires Valid() && Good(x, View(), e)
      modifies this
      ensures Valid() && d == NO_EXP.(k := d.k) && d.k.VNonReloc? && Good(x, View(), d)
        && Kept(x, old(View()), e, View(), d)
    {
      ghost var s0 := View();
      hide Good, Kept, ListsOk, Wf;
      d := DischargeVars(e, x, freereg);
      ghost var s, e1 := View(), d;
      if d.k.VNonReloc? {
        GoodPlain(x, s, d);
        WfLists(x, s, d);
        NoJumps(x, s, d);
        if d.t == d.f {
          return;
        }
        FreeIsBase(x, s, d);
        if d.k.r >= nactvar {
          d := Exp2Reg(d, d.k.r, x);
          KeptTrans(x, s0, e, s, e1, View(), d);
          return;
        }
      }
      d := Exp2NextReg(d, x);
      KeptTrans(x, s0, e, s, e1, View(), d);
    }

    /** luaK_exp2val */
    method Exp2Val(e: Exp, ghost x: Ctx) returns (d: Exp)
      requires Valid() && Good(x, View(), e)
      modifies this
      ensures Valid() && d == NO_EXP.(k := d.k) && Good(x, View(), d) && Kept(x, old(View()), e, View(), d)
        && !d.k.VLocal? && !d.k.VUpval?
    {
      hide Good, Kept, ListsOk, Wf;
      GoodBare(x, View(), e);
      NoJumps(x, Bare(View(), e), BareExp(View(), e));
      if e.t != e.f {
        d := Exp2AnyReg(e, x);
      } else {
        d := DischargeVars(e, x, freereg);
      }
    }

    /** luaK_exp2RK; operands already settled pass through. */
    method Exp2RK(e: Exp, ghost x: Ctx) returns (d: Exp, o: Operand)
      requires Valid() && (IsOperand(e) || Good(x, View(), e))
      modifies this
      ensures Valid() && IsOperand(d) && o == OperandOf(d)
      ensures IsOperand(e) ==> d == e && View() == old(View())
      ensures Good(x, old(View()), e) ==>
        HasOperand(x, View(), o) && Grows(old(View()), View()) && Frame(Bare(old(View()), e).c, code, x.outer)
    {
      ghost var s0 := View();
      hide Good, Kept, Wf, Judge, HasOperand, Frame, ListsOk;
      if e.t == e.f && (e.k.VNonReloc? || (e.k.VK? && e.k.n <= MAXINDEXRK)) {
        if Good(x, s0, e) {
          SettledOperand(x, s0, e);
        }
        d, o := e, if e.k.VNonReloc? then Reg(e.k.r) else Kst(e.k.n);
        return;
      }
      d := Exp2Val(e, x);
      ghost var s, e1 := View(), d;
      if d.k.VKNum? || d.k.VTrue? || d.k.VFalse? || d.k.VNil? {
        if |k| <= MAXINDEXRK {
          var n := AddK(if d.k.VNil? then Nil else if d.k.VKNum? then d.k.v else Bool(d.k.VTrue?));
          d := d.(k := VK(n));
          o := Kst(n);
          ConstantOperand(x, s, e1, View(), n);
          KeptPlain(x, s0, e, s, e1, View());
          return;
        }
      } else if d.k.VK? {
        if d.k.n <= MAXINDEXRK {
          SettledOperand(x, s, d);
          KeptPlain(x, s0, e, s, e1, View());
          return d, Kst(d.k.n);
        }
      }
      d := Exp2AnyReg(d, x);
      o := Reg(d.k.r);
      KeptTrans(x, s0, e, s, e1, View(), d);
      SettledOperand(x, View(), d);
      KeptPlain(x, s0, e, View(), d, View());
    }

    // ------------------------------------------------------- jumps on conditions

    /** The value is tested and a jump made for the case that its truth is cond. The test is i,
        emitted in state sb for descriptor eb. */
    method JumpOnCond(e: Exp, cond: bool, ghost x: Ctx) returns (j: int, ghost sb: Gen, ghost eb: Exp, ghost i: Instr)
      requires Valid() && Good(x, View(), e) && !e.k.VJmp?
      modifies this
      ensures Valid() && Wf(x, sb, eb) && Judge(x, sb, eb) && Decides(sb, eb.k, i, cond, VCond(!cond))
      ensures View() == TestedState(x, sb, i) && j == |sb.c| + 1 && eb == e.(k := eb.k)
      ensures Grows(old(View()), sb) && Frame(Bare(old(View()), e).c, sb.c, x.outer)
    {
      hide Good, Kept, Wf, Judge, Frame, Decides, Landed, ListOk;
      ghost var s := View();
      if e.k.VReloc? {
        RelocParts(x, s, e);
        var ie := code[e.k.pc];
        if ie.Not? {
          sb, eb, i := Bare(s, e), e.(k := VInstr(ie)), Test(ie.b, !cond);
          code := code[..|code| - 1];
          FrameSame(sb.c, x.outer);
          NotDecides(sb, ie.a, ie.b, cond);
          WfListsAre(x, sb, eb);
          j := CondJump(Test(ie.b, !cond));
          return;
        }
      }
      var d := Discharge2AnyReg(e, x);
      sb, eb, i := View(), d, TestSet(NO_REG, d.k.r, cond);
      FreeIsBase(x, sb, eb);
      FreeExp(d);
      GoodPlain(x, sb, eb);
      KeptPlain(x, s, e, sb, eb, sb);
      TestSetDecides(sb, d.k.r, cond);
      WfListsAre(x, sb, eb);
      j := CondJump(TestSet(NO_REG, d.k.r, cond));
      assert View() == TestedState(x, sb, i) by { LandedFrees(sb, x.base); }
    }

    /** The end of luaK_goiftrue and luaK_goiffalse: the jump joins the list for !b, the jumps of
        the list for b lead here. */
    method CloseBranch(e: Exp, j: int, b: bool, ghost x: Ctx, ghost sb: Gen, ghost eb: Exp, ghost i: Instr)
        returns (d: Exp)
      requires eb == e.(k := eb.k) && Wf(x, sb, eb) && Judge(x, sb, eb) && Decides(sb, eb.k, i, !b, VCond(b))
        && View() == TestedState(x, sb, i) && j == |sb.c| + 1
      modifies this`code, this`jpc, this`jps, this`lasttarget
      ensures Gone(x, View(), d, b) && Grows(sb, View()) && Frame(sb.c, code, x.outer)
      ensures k == old(k)
    {
      hide Wf, Judge, Decides, Frame, ListsOk, ListOk, Landed, ConcatCode, CodeOk;
      GoStep(x, sb, eb, i, b);
      ghost var s1, e1 := BranchState(x, sb, eb, i, !b), BranchExp(sb, eb, !b, VCond(b));
      IsDecider(sb, eb.k, i, !b, VCond(b));
      JumpApart(x, sb, eb, i);
      d := e;
      if b {
        var f := Concat(e.f, j, e.fs, [j]);
        d := d.(f := f, fs := d.fs + [j]);
      } else {
        var t := Concat(e.t, j, e.ts, [j]);
        d := d.(t := t, ts := d.ts + [j]);
      }
      assert View() == s1 && d == e1.(k := e.k);
      ListsAre(x, s1, e1);
      if b {
        PatchToHere(d.t, d.ts);
        d := d.(t := NO_JUMP, ts := []);
      } else {
        PatchToHere(d.f, d.fs);
        d := d.(f := NO_JUMP, fs := []);
      }
    }

    method CloseConstant(e: Exp, b: bool, ghost x: Ctx) returns (d: Exp)
      requires Wf(x, View(), e.(k := VCond(b))) && Judge(x, View(), e.(k := VCond(b)))
      modifies this`code, this`jpc, this`jps, this`lasttarget
      ensures Gone(x, View(), d, b) && Grows(old(View()), View()) && Frame(old(code), code, x.outer)
    {
      ghost var s, e1 := View(), e.(k := VCond(b));
      hide Wf, Judge, Frame, ListsOk, ListOk, ConcatCode, CodeOk;
      HereOk(x, s, e1, b);
      WfLists(x, s, e1);
      ListsAre(x, s, e1);
      if b {
        PatchToHere(e.t, e.ts);
        d := e.(t := NO_JUMP, ts := []);
      } else {
        PatchToHere(e.f, e.fs);
        d := e.(f := NO_JUMP, fs := []);
      }
      assert View() == HereState(s, e1, b) && d.(k := VCond(b)) == HereExp(e1, b);
    }

    /** luaK_goiftrue: control goes on if the expression is true. */
    method GoIfTrue(e: Exp, ghost x: Ctx) returns (d: Exp)
      requires Valid() && Good(x, View(), e)
      modifies this
      ensures Valid() && Gone(x, View(), d, true) && Grows(old(View()), View())
        && Frame(Bare(old(View()), e).c, code, x.outer)
    {
      hide Good, Kept, Wf, Judge, Frame, Decides, Landed, ListOk, Gone;
      ghost var s0 := View();
      d := DischargeVars(e, x, freereg);
      ghost var s, e1 := View(), d;
      if d.k.VK? || d.k.VKNum? || d.k.VTrue? {
        ConstantStep(x, s, d, true);
        KeptPlain(x, s0, e, s, e1, s);
        d := CloseConstant(d, true, x);
        FrameTrans(Bare(s0, e).c, s.c, code, x.outer);
      } else if d.k.VJmp? {
        JmpParts(x, s, d);
        var i := code[d.k.pc - 1];
        code := code[d.k.pc - 1 := Inverted(i)];
        CompareDecides(Bare(s, d), i);
        TestedIs(x, Bare(s, d), Inverted(i), View());
        d := CloseBranch(d, d.k.pc, true, x, Bare(s, e1), e1.(k := VTest(i)), Inverted(i));
        KeptBare(x, s0, e, s, e1, View());
      } else {
        var j;
        ghost var sb, eb, i;
        j, sb, eb, i := JumpOnCond(d, false, x);
        d := CloseBranch(d, j, true, x, sb, eb, i);
        FrameTrans(Bare(s, e1).c, sb.c, code, x.outer);
        KeptBare(x, s0, e, s, e1, View());
      }
    }

    /** luaK_goiffalse */
    method GoIfFalse(e: Exp, ghost x: Ctx) returns (d: Exp)
      requires Valid() && Good(x, View(), e)
      modifies this
      ensures Valid() && Gone(x, View(), d, false) && Grows(old(View()), View())
        && Frame(Bare(old(View()), e).c, code, x.outer)
    {
      hide Good, Kept, Wf, Judge, Frame, Decides, Landed, ListOk, Gone;
      ghost var s0 := View();
      d := DischargeVars(e, x, freereg);
      ghost var s, e1 := View(), d;
      if d.k.VNil? || d.k.VFalse? {
        ConstantStep(x, s, d, false);
        KeptPlain(x, s0, e, s, e1, s);
        d := CloseConstant(d, false, x);
        FrameTrans(Bare(s0, e).c, s.c, code, x.outer);
      } else if d.k.VJmp? {
        JmpParts(x, s, d);
        ghost var i := code[d.k.pc - 1];
        CompareDecides(Bare(s, d), i);
        TestedIs(x, Bare(s, d), i, View());
        d := CloseBranch(d, d.k.pc, false, x, Bare(s, e1), e1.(k := VTest(i)), i);
        KeptBare(x, s0, e, s, e1, View());
      } else {
        var j;
        ghost var sb, eb, i;
        j, sb, eb, i := JumpOnCond(d, true, x);
        d := CloseBranch(d, j, false, x, sb, eb, i);
        FrameTrans(Bare(s, e1).c, sb.c, code, x.outer);
        KeptBare(x, s0, e, s, e1, View());
      }
    }

    // -------------------------------------------------------------- operators

    /** The end of codenot: the lists change places and no jump carries a value any more. */
    method SwapLists(e: Exp, ghost c: seq<Instr>, ghost tail: seq<Instr>) returns (d: Exp)
      requires code == c + tail && ListOk(c, e.t, e.ts) && ListOk(c, e.f, e.fs) && AreJumps(c, e.ts)
        && AreJumps(c, e.fs)
      modifies this`code
      ensures code == Unset(c, e.ts + e.fs) + tail && d == Swapped(e, e.k)
    {
      d := Exp(e.k, e.f, e.t, e.fs, e.ts);
      ListPrefix(c, code, e.t, e.ts);
      ListPrefix(c, code, e.f, e.fs);
      UnsetKeeps(code, e.ts, e.f, e.fs);
      UnsetTail(c, tail, e.ts, e.fs);
      hide ListOk, Unset;
      RemoveValues(d.f, d.fs);
      RemoveValues(d.t, d.ts);
    }

    /** A value that is not a constant is put in a register and negated from there. */
    method NotOfRegister(e: Exp, ghost x: Ctx) returns (d: Exp)
      requires Valid() && Good(x, View(), e) && !e.k.VJmp?
      modifies this
      ensures Valid() && Good(NotCtx(x), View(), d) && Kept(x, old(View()), e, View(), d)
    {
      hide Good, Kept, Wf, Judge, Frame, Landed, ListOk, Unset;
      d := Discharge2AnyReg(e, x);
      ghost var s, e1 := View(), d;
      FreeIsBase(x, s, d);
      FreeExp(d);
      GoodPlain(x, s, d);
      LandedLists(x, s, d);
      LandedLength(s);
      ListNone(Landed(s), d.t, d.ts);
      ListNone(Landed(s), d.f, d.fs);
      WfListsAre(x, s, d);
      LandedFrees(s, x.base);
      var pc := Code(Not(0, d.k.r));
      d := d.(k := VReloc(pc));
      d := SwapLists(d, Landed(s), [Not(0, e1.k.r)]);
      NotRegStep(x, s, e1, View());
      KeptTrans(x, old(View()), e, s, e1, View(), d);
    }

    method CodeNot(e: Exp, ghost x: Ctx) returns (d: Exp)
      requires Valid() && Good(x, View(), e)
      modifies this
      ensures Valid() && Good(NotCtx(x), View(), d) && Kept(x, old(View()), e, View(), d)
    {
      hide Good, Kept, Wf, Judge, Frame, Landed, ListOk, Unset;
      ghost var s0 := View();
      d := DischargeVars(e, x, freereg);
      ghost var s, e1 := View(), d;
      BareTail(s, d);
      BareLists(x, s, d);
      if d.k.VNil? || d.k.VFalse? || d.k.VK? || d.k.VKNum? || d.k.VTrue? {
        NotConstantStep(x, s, d);
        d := d.(k := if d.k.VNil? || d.k.VFalse? then VTrue else VFalse);
        d := SwapLists(d, s.c, []);
        assert code == Unset(s.c, e1.ts + e1.fs);
      } else if d.k.VJmp? {
        JmpParts(x, s, d);
        var i := code[d.k.pc - 1];
        code := code[d.k.pc - 1 := Inverted(i)];
        d := SwapLists(d, Bare(s, e1).c, [Inverted(i), Jmp(NO_JUMP)]);
        NotJmpStep(x, s, e1, View());
      } else {
        d := NotOfRegister(d, x);
      }
      KeptTrans(x, s0, e, s, e1, View(), d);
    }

    /** codecomp: s1 is the state in which e1 became an operand of a comparison in context y;
        s2 and o2 are the state and the operand once e2 is one too. */
    method CodeComp(op: Cmp, cond: bool, e1: Exp, e2: Exp, ghost y: Ctx, ghost x2: Ctx)
      returns (d: Exp, ghost s2: Gen, ghost o2: Operand)
      requires Valid() && IsOperand(e1) && Good(x2, View(), e2)
        && (e1.k.VNonReloc? && e1.k.r >= nactvar ==> e1.k.r == y.base)
      requires x2.base == if e1.k.VNonReloc? && e1.k.r >= nactvar then y.base + 1 else y.base
      modifies this
      ensures Valid() && HasOperand(x2, s2, o2) && Grows(old(View()), s2)
        && Frame(Bare(old(View()), e2).c, s2.c, x2.outer)
      ensures var o1 := OperandOf(e1);
        var i := if !cond && op != Eq then Compare(op, true, o2, o1) else Compare(op, cond, o1, o2);
        View() == s2.(c := Landed(s2) + [i, Jmp(NO_JUMP)], jpc := NO_JUMP, jps := [], freereg := y.base)
      ensures d == NO_EXP.(k := VJmp(|s2.c| + 1))
    {
      hide Good, Wf, Judge, HasOperand, Frame, Landed, ListOk;
      var d1, o1 := Exp2RK(e1, x2);
      var d2, o2' := Exp2RK(e2, x2);
      s2, o2 := View(), o2';
      OperandRegs(x2, s2, o2);
      FreeExp(d2);
      FreeExp(d1);
      var a, b, c := o1, o2', cond;
      if !cond && op != Eq {
        a, b, c := o2', o1, true;
      }
      var j := CondJump(Compare(op, c, a, b)) by { OperandLists(x2, s2, o2); }
      LandedFrees(s2, y.base);
      d := d1.(k := VJmp(j));
    }

    /** The second half of and (b) and or (!b): the jumps of both operands come together. */
    method JoinLists(b: bool, d1: Exp, e2: Exp, ghost y: Ctx, ghost a1: Expr, ghost a2: Expr, ghost s1: Gen)
        returns (d: Exp)
      requires Valid() && Gone(For(y, a1), s1, d1, b) && InScope(a1, s1.nact) && InScope(a2, s1.nact)
      requires Good(For(After1(y, a1, s1, d1, b), a2), View(), e2) && Grows(s1, View())
        && Frame(s1.c, Bare(View(), e2).c, After1(y, a1, s1, d1, b).outer)
      modifies this`code, this`jpc, this`jps
      ensures Valid() && Good(For(y, Logic(b, a1, a2)), View(), d) && Frame(s1.c, Bare(View(), d).c, y.outer)
        && Grows(old(View()), View())
    {
      ghost var x2 := For(After1(y, a1, s1, d1, b), a2);
      hide Good, Wf, Judge, Frame, Landed, ListOk, Gone, Kept, ConcatCode;
      ghost var s0 := View();
      d := DischargeVars(e2, x2, freereg);
      ghost var s, e := View(), d;
      ghost var c := Bare(s, e).c;
      BareTail(s, e);
      JoinFacts(x2, s0, e2, s, e, s1);
      JoinReady(y, a1, a2, s1, d1, b, s, e);
      if b {
        var f := Concat(d.f, d1.f, d.fs, d1.fs);
        d := d.(f := f, fs := d.fs + d1.fs);
      } else {
        var t := Concat(d.t, d1.t, d.ts, d1.ts);
        d := d.(t := t, ts := d.ts + d1.ts);
      }
      JoinOk(y, a1, a2, s1, d1, b, s, e, View(), d);
    }

    // ------------------------------------------------------------ expressions

    /** subexpr: the operands and operators of an expression in the order the parser meets them. */
    method SubExpr(a: Expr, ghost y: Ctx) returns (d: Exp)
      requires Valid() && Wf(y, View(), NO_EXP) && Judge(y, View(), NO_EXP) && InScope(a, nactvar) && freereg == y.base
      modifies this
      ensures Valid() && Good(For(y, a), View(), d) && Grows(old(View()), View())
        && Frame(old(code), Bare(View(), d).c, y.outer)
      decreases a, 1
    {
      hide Good, Wf, Judge, Frame;
      match a
      case Neg(a1) =>
        var e := SubExpr(a1, y);
        ghost var s := View();
        d := CodeNot(e, For(y, a1));
        NegOk(y, View(), d, a1);
        KeptBack(For(y, a1), old(code), s, e, View(), d);
      case And(a1, a2) =>
        d := ShortCircuit(true, a1, a2, y);
      case Or(a1, a2) =>
        d := ShortCircuit(false, a1, a2, y);
      case Rel(op, a1, a2) =>
        d := Comparison(op, a1, a2, y);
      case Const(v) =>
        d := Exp(match v { case Nil => VNil case Bool(b) => (if b then VTrue else VFalse) case Data(_) => VKNum(v) },
          NO_JUMP, NO_JUMP, [], []);
        LeafOk(y, View(), a, d.k);
        FrameSame(code, y.outer);
      case Str(v) =>
        var n := AddK(v);
        ghost var s := old(View());
        StringOk(y, s, View(), a, n);
        d := Exp(VK(n), NO_JUMP, NO_JUMP, [], []);
        FrameSame(code, y.outer);
      case Local(r) =>
        d := Exp(VLocal(r), NO_JUMP, NO_JUMP, [], []);
        LeafOk(y, View(), a, d.k);
        FrameSame(code, y.outer);
      case Up(i) =>
        d := Exp(VUpval(i), NO_JUMP, NO_JUMP, [], []);
        LeafOk(y, View(), a, d.k);
        FrameSame(code, y.outer);
    }

    /** The first operand of and (b) and or (!b), then luaK_infix. */
    method FirstOfLogic(b: bool, a1: Expr, ghost y: Ctx) returns (d: Exp)
      requires Valid() && Wf(y, View(), NO_EXP) && Judge(y, View(), NO_EXP) && InScope(a1, nactvar) && freereg == y.base
      modifies this
      ensures Valid() && Gone(For(y, a1), View(), d, b) && Grows(old(View()), View()) && Frame(old(code), code, y.outer)
      decreases a1, 2
    {
      hide Good, Wf, Judge, Frame, Gone, InScope, Valid;
      var e := SubExpr(a1, y);
      ghost var s := View();
      if b {
        d := GoIfTrue(e, For(y, a1));
      } else {
        d := GoIfFalse(e, For(y, a1));
      }
      FrameTrans(old(code), Bare(s, e).c, code, y.outer);
    }

    /** luaK_infix, the second operand and luaK_posfix for and (b) and or (!b). */
    method ShortCircuit(b: bool, a1: Expr, a2: Expr, ghost y: Ctx) returns (d: Exp)
      requires Valid() && Wf(y, View(), NO_EXP) && Judge(y, View(), NO_EXP) && InScope(a1, nactvar)
        && InScope(a2, nactvar) && freereg == y.base
      modifies this
      ensures Valid() && Good(For(y, Logic(b, a1, a2)), View(), d) && Grows(old(View()), View())
        && Frame(old(code), Bare(View(), d).c, y.outer)
      decreases Logic(b, a1, a2), 0
    {
      hide Good, Wf, Judge, Frame, Gone, InScope, Valid, Bare;
      var e1 := FirstOfLogic(b, a1, y);
      ghost var s1 := View();
      d := SecondOfLogic(b, e1, a1, a2, y);
      FrameTrans(old(code), s1.c, Bare(View(), d).c, y.outer);
    }

    /** The second operand of and (b) and or (!b), then luaK_posfix. */
    method SecondOfLogic(b: bool, e1: Exp, ghost a1: Expr, a2: Expr, ghost y: Ctx) returns (d: Exp)
      requires Valid() && Gone(For(y, a1), View(), e1, b) && InScope(a1, nactvar) && InScope(a2, nactvar)
      modifies this
      ensures Valid() && Good(For(y, Logic(b, a1, a2)), View(), d) && Grows(old(View()), View())
        && Frame(old(code), Bare(View(), d).c, y.outer)
      decreases a2, 2
    {
      hide Good, Wf, Judge, Frame, Gone, InScope, Valid, Bare, After1;
      ghost var s1 := View();
      GoneNext(y, a1, s1, e1, b);
      var e2 := SubExpr(a2, After1(y, a1, s1, e1, b));
      d := JoinLists(b, e1, e2, y, a1, a2, s1);
    }

    /** The first operand of a comparison, then luaK_infix. */
    method FirstOfRelation(a1: Expr, ghost y: Ctx) returns (d: Exp, o: Operand)
      requires Valid() && Wf(y, View(), NO_EXP) && Judge(y, View(), NO_EXP) && InScope(a1, nactvar) && freereg == y.base
      modifies this
      ensures Valid() && HasOperand(For(y, a1), View(), o) && IsOperand(d) && o == OperandOf(d)
      ensures Grows(old(View()), View()) && Frame(old(code), code, y.outer)
      decreases a1, 2
    {
      hide Good, Wf, Judge, Frame, HasOperand, InScope, Valid;
      var e := SubExpr(a1, y);
      ghost var s := View();
      d, o := Exp2RK(e, For(y, a1));
      FrameTrans(old(code), Bare(s, e).c, code, y.outer);
    }

    /** The second operand of a comparison, then codecomp. */
    method SecondOfRelation(op: CmpOp, e1: Exp, a1: Expr, a2: Expr, ghost y: Ctx, o1: Operand) returns (d: Exp)
      requires Valid() && HasOperand(For(y, a1), View(), o1) && IsOperand(e1) && o1 == OperandOf(e1)
        && InScope(a1, nactvar) && InScope(a2, nactvar)
      modifies this
      ensures Valid() && Good(For(y, Rel(op, a1, a2)), View(), d) && Grows(old(View()), View())
        && Frame(old(code), Bare(View(), d).c, y.outer)
      decreases a2, 2
    {
      hide Good, Wf, Judge, Frame, HasOperand, InScope, Landed, Valid, Bare;
      ghost var s1 := View();
      SecondOk(y, a1, s1, o1);
      OperandRegs(For(y, a1), s1, o1);
      ghost var y2 := Second(y, a1, s1, o1);
      var e2 := SubExpr(a2, y2);
      ghost var s3 := View();
      var cmp := if op.EQ? || op.NE? then Eq else if op.LT? || op.GT? then Lt else Le;
      ghost var s2, o2;
      d, s2, o2 := CodeComp(cmp, op.EQ? || op.LT? || op.LE?, e1, e2, y, For(y2, a2));
      FrameTrans(s1.c, Bare(s3, e2).c, s2.c, y.outer);
      CompareEnd(y, op, a1, a2, s1, o1, s2, o2, View(), d);
    }

    method Comparison(op: CmpOp, a1: Expr, a2: Expr, ghost y: Ctx) returns (d: Exp)
      requires Valid() && Wf(y, View(), NO_EXP) && Judge(y, View(), NO_EXP) && InScope(a1, nactvar)
        && InScope(a2, nactvar) && freereg == y.base
      modifies this
      ensures Valid() && Good(For(y, Rel(op, a1, a2)), View(), d) && Grows(old(View()), View())
        && Frame(old(code), Bare(View(), d).c, y.outer)
      decreases Rel(op, a1, a2), 0
    {
      hide Good, Wf, Judge, Frame, HasOperand, InScope, Valid, Bare, For, IsOperand, OperandOf, NO_EXP;
      ghost var s0 := View();
      var e1, o1 := FirstOfRelation(a1, y);
      ghost var s1 := View();
      d := SecondOfRelation(op, e1, a1, a2, y, o1);
      BackTo(s0, s1, View(), d, y.outer);
    }
  }

  lemma BackTo(s0: Gen, s1: Gen, s2: Gen, d: Exp, outer: set<int>)
    requires Grows(s0, s1) && Grows(s1, s2) && Frame(s0.c, s1.c, outer) && Frame(s1.c, Bare(s2, d).c, outer)
    ensures Grows(s0, s2) && Frame(s0.c, Bare(s2, d).c, outer)
  {
    FrameTrans(s0.c, s1.c, Bare(s2, d).c, outer);
  }

  lemma KeptBack(x: Ctx, c: seq<Instr>, s: Gen, e: Exp, s': Gen, d: Exp)
    requires Frame(c, Bare(s, e).c, x.outer) && Kept(x, s, e, s', d)
    ensures Frame(c, Bare(s', d).c, x.outer)
  {
    FrameTrans(c, Bare(s, e).c, Bare(s', d).c, x.outer);
  }

  lemma StringOk(y: Ctx, s: Gen, s': Gen, a: Expr, n: nat)
    requires Wf(y, s, NO_EXP) && Judge(y, s, NO_EXP) && a.Str? && InScope(a, s.nact) && s.freereg == y.base
    requires s' == s.(k := s'.k) && s.k <= s'.k && n < |s'.k| && s'.k[n] == a.v
    ensures Good(For(y, a), s', NO_EXP.(k := VK(n))) && Bare(s', NO_EXP.(k := VK(n))) == s'
  {
    hide Wf, Judge;
    JudgeGrow(y, s, NO_EXP, s');
    WfGrow(y, s, NO_EXP, s');
    LeafOk(y, s', a, VK(n));
  }

  lemma GoneNext(y: Ctx, a1: Expr, s1: Gen, d1: Exp, b: bool)
    requires Gone(For(y, a1), s1, d1, b)
    ensures Wf(After1(y, a1, s1, d1, b), s1, NO_EXP) && Judge(After1(y, a1, s1, d1, b), s1, NO_EXP)
      && s1.freereg == y.base == After1(y, a1, s1, d1, b).base
  {
    hide Wf, Judge;
    NextOk(For(y, a1), s1, d1.(k := VCond(b)));
  }

  lemma CompareEnd(y: Ctx, op: CmpOp, a1: Expr, a2: Expr, s1: Gen, o1: Operand, s2: Gen, o2: Operand, s': Gen, d: Exp)
    requires HasOperand(For(y, a1), s1, o1) && HasOperand(For(Second(y, a1, s1, o1), a2), s2, o2)
    requires InScope(a1, s1.nact) && InScope(a2, s1.nact) && Grows(s1, s2) && Frame(s1.c, s2.c, y.outer)
    requires s' == s2.(c := Landed(s2) + [CompareInstr(op, o1, o2), Jmp(NO_JUMP)], jpc := NO_JUMP, jps := [],
      freereg := y.base)
    requires d == NO_EXP.(k := VJmp(|s2.c| + 1))
    ensures Good(For(y, Rel(op, a1, a2)), s', d) && Frame(s1.c, Bare(s', d).c, y.outer)
  {
    hide HasOperand, Wf, Judge, Frame, Landed, InScope, Good;
    CompareOk(y, op, a1, a2, s1, o1, s2, o2);
    LandedLength(s2);
    GoodJmp(For(y, Rel(op, a1, a2)), ComparedState(y, s2), d, CompareInstr(op, o1, o2), s');
  }

  /** What is expected of the second operand of and and or. */
  ghost function After1(y: Ctx, a1: Expr, s1: Gen, d1: Exp, b: bool): Ctx {
    Next2(For(y, a1), s1, d1.(k := VCond(b)), y.base)
  }

  lemma OperandRegs(x: Ctx, s: Gen, o: Operand)
    requires HasOperand(x, s, o)
    ensures s.freereg == if o == Reg(x.base) then x.base + 1 else x.base
    ensures o.Reg? && o.r >= s.nact ==> o.r == x.base
    ensures s.nact <= x.base
  {
  }

  lemma OperandLists(x: Ctx, s: Gen, o: Operand)
    requires HasOperand(x, s, o)
    ensures ListOk(s.c, s.jpc, s.jps)
  {
  }

  lemma JoinFacts(x: Ctx, s0: Gen, e0: Exp, s: Gen, e: Exp, s1: Gen)
    requires Kept(x, s0, e0, s, e) && Frame(s1.c, Bare(s0, e0).c, x.outer) && Grows(s1, s0)
    ensures Frame(s1.c, Bare(s, e).c, x.outer) && Grows(s1, s) && Grows(s0, s)
  {
    FrameTrans(s1.c, Bare(s0, e0).c, Bare(s, e).c, x.outer);
  }

  /** The lists to be put together are lists in the code as it is now. */
  lemma JoinReady(y: Ctx, a1: Expr, a2: Expr, s1: Gen, d1: Exp, b: bool, s: Gen, e: Exp)
    requires Gone(For(y, a1), s1, d1, b) && Good(For(After1(y, a1, s1, d1, b), a2), s, e)
      && Frame(s1.c, Bare(s, e).c, After1(y, a1, s1, d1, b).outer)
    ensures ListOk(s.c, HeadOf(e, !b), ListOf(e, !b)) && ListOk(s.c, HeadOf(d1, !b), ListOf(d1, !b))
      && Disjoint(ListOf(e, !b), ListOf(d1, !b))
  {
    var x2, c := For(After1(y, a1, s1, d1, b), a2), Bare(s, e).c;
    hide Good, Wf, Judge, ListOk, Frame, ListsOk;
    BareLists(x2, s, e);
    BareTail(s, e);
    ListPrefix(c, s.c, HeadOf(e, !b), ListOf(e, !b));
    WfListsAre(For(y, a1), s1, d1.(k := VCond(b)));
    FrameLess(s1.c, c, x2.outer, Elems(ListOf(d1, !b)));
    FrameListOk(s1.c, c, HeadOf(d1, !b), ListOf(d1, !b));
    ListPrefix(c, s.c, HeadOf(d1, !b), ListOf(d1, !b));
    GoodBare(x2, s, e);
    OuterApart(x2, Bare(s, e), BareExp(s, e));
  }

  lemma FrameListOk(c: seq<Instr>, c': seq<Instr>, l: int, s: seq<int>)
    requires ListOk(c, l, s) && Frame(c, c', Elems(s))
    ensures ListOk(c', l, s)
  {
    ListJumps(c, l, s);
    assert forall n :: n in s ==> n in Elems(s);
    ListFrame(c, c', l, s);
  }

  lemma JoinOk(y: Ctx, a1: Expr, a2: Expr, s1: Gen, d1: Exp, b: bool, s: Gen, e: Exp, s': Gen, d: Exp)
    requires Gone(For(y, a1), s1, d1, b) && Good(For(After1(y, a1, s1, d1, b), a2), s, e)
      && Frame(s1.c, Bare(s, e).c, After1(y, a1, s1, d1, b).outer)
    requires InScope(a1, s1.nact) && InScope(a2, s1.nact) && Grows(s1, s)
    requires s' == s.(c := ConcatCode(s.c, ListOf(e, !b), HeadOf(d1, !b), ListOf(d1, !b))) && d == LogicExp(d1, e, b)
    ensures Good(For(y, Logic(b, a1, a2)), s', d) && Frame(s1.c, Bare(s', d).c, y.outer)
  {
    var x2, bs, be := For(After1(y, a1, s1, d1, b), a2), Bare(s, e), BareExp(s, e);
    var d0 := d1.(k := VCond(b));
    hide Wf, Judge, Frame, ListOk, ConcatCode, InScope;
    assert After1(y, a1, s1, d1, b) == Next2(For(y, a1), s1, d0, y.base);
    assert Operands(y, b, a1, a2, s1, d0, bs, be);
    LogicOk(y, b, a1, a2, s1, d0, bs, be);
    hide Good;
    BareTail(s, e);
    BareLists(x2, s, e);
    ConcatTail(bs.c, Tail(s, e), ListOf(e, !b), HeadOf(d1, !b), ListOf(d1, !b));
    Retail(x2, For(y, Logic(b, a1, a2)), s, e, LogicState(bs, d0, be, b).c, d, s');
  }

  /** The expression has been tested, control goes on only if its truth is b. */
  ghost predicate Gone(x: Ctx, s: Gen, d: Exp, b: bool) {
    && Wf(x, s, d.(k := VCond(b))) && Judge(x, s, d.(k := VCond(b))) && ListOf(d, b) == [] && HeadOf(d, b) == NO_JUMP
    && s.freereg == x.base
  }

  /** The operand is where codecomp needs it. */
  ghost predicate IsOperand(e: Exp) {
    e.t == e.f == NO_JUMP && e.ts == [] == e.fs && (e.k.VNonReloc? || (e.k.VK? && e.k.n <= MAXINDEXRK))
  }

  ghost function OperandOf(e: Exp): Operand
    requires IsOperand(e)
  {
    if e.k.VNonReloc? then Reg(e.k.r) else Kst(e.k.n)
  }

  lemma SettledOperand(x: Ctx, s: Gen, e: Exp)
    requires Good(x, s, e) && e.t == e.f && (e.k.VNonReloc? || (e.k.VK? && e.k.n <= MAXINDEXRK))
    ensures IsOperand(e) && HasOperand(x, s, OperandOf(e)) && Frame(Bare(s, e).c, s.c, x.outer)
  {
    GoodPlain(x, s, e);
    WfLists(x, s, e);
    NoJumps(x, s, e);
    hide Judge, CodeOk, ListsOk, Targets;
    if e.k.VK? {
      Rekind(x, s, e, VInstr(LoadK(0, e.k.n)));
    }
  }

  lemma ConstantOperand(x: Ctx, s: Gen, e: Exp, s': Gen, n: nat)
    requires Good(x, s, e) && e == NO_EXP.(k := e.k) && s' == s.(k := s'.k) && s.k <= s'.k && n < |s'.k|
    requires if e.k.VNil? then s'.k[n] == Nil
      else if e.k.VKNum? then s'.k[n] == e.k.v else (e.k.VTrue? || e.k.VFalse?) && s'.k[n] == Bool(e.k.VTrue?)
    ensures HasOperand(x, s', Kst(n))
  {
    GoodGrow(x, s, e, s');
    hide Wf, Judge;
    GoodPlain(x, s', e);
    WfLists(x, s', e);
    hide Good;
    Rekind(x, s', e, VInstr(LoadK(0, n)));
  }

  lemma KeptPlain(x: Ctx, s0: Gen, e0: Exp, s: Gen, e: Exp, s': Gen)
    requires Kept(x, s0, e0, s, e) && s' == s.(k := s'.k) && s.k <= s'.k && !e.k.VReloc? && !e.k.VJmp?
    ensures Grows(s0, s') && Frame(Bare(s0, e0).c, s'.c, x.outer)
  {
  }

  lemma ListEmpty(c: seq<Instr>)
    ensures ListOk(c, NO_JUMP, [])
  {
  }

  lemma ListNone(c: seq<Instr>, l: int, s: seq<int>)
    requires ListOk(c, l, s)
    ensures (s == [] ==> l == NO_JUMP) && AreJumps(c, s) && ListOk(c, NO_JUMP, [])
  {
    ListJumps(c, l, s);
  }

  lemma ShapeIs(x: Ctx, s: Gen, e: Exp, g: Goals, tail: seq<Instr>, jps: seq<int>, isjmp: bool, need: bool,
      c: seq<Instr>)
    requires c == s.c + tail && g.reg == x.base && g.final == |c| && e.k == if isjmp then VFalse else VNonReloc(x.base)
    requires isjmp ==> s.jps == [] && need
    requires !need ==> g.pf == g.pt == NO_JUMP && tail == [] && jps == s.jps && forall i ::
      i in e.ts || i in e.fs ==> HasTestSet(s.c, i)
    requires need ==>
      && g.pt == g.pf + 1 && |c| == g.pf + 2 && g.pf == (if isjmp then |s.c| else |s.c| + 1)
      && c[g.pf..] == [LoadBool(x.base, false, true), LoadBool(x.base, true, false)] && (!isjmp ==> c[|s.c|].Jmp?)
      && jps == if isjmp then [] else [|s.c|] + s.jps
    ensures Shape(x, s, e, g, tail, jps)
  {
    if need {
      if isjmp {
        assert tail == c[g.pf..];
      } else {
        assert tail[1..] == c[g.pf..];
        assert tail[0] == c[|s.c|];
      }
    }
  }

  lemma ClosingOk(x: Ctx, s: Gen, e: Exp, g: Goals, tail: seq<Instr>, w: Gen, w': Gen)
    requires Wf(x, s, e) && Judge(x, s, e) && Shape(x, s, e, g, tail, w.jps) && x.base < s.max
      && ListOk(w.c, w.jpc, w.jps)
    requires w == s.(c := s.c + tail, jpc := w.jpc, jps := w.jps, last := |s.c + tail|, freereg := x.base + 1)
    requires w' == w.(c := Patched(Patched(w.c, e.fs, g.final, g.reg, g.pf), e.ts, g.final, g.reg, g.pt))
    ensures Good(x, w', InBase(x)) && Frame(s.c, w'.c, x.outer)
  {
    assert forall n :: n in w.jps ==> n >= |s.c| || n in s.jps;
    WfLists(x, s, e);
    ListsAre(x, s, e);
    hide Wf, Judge, Good, Frame, Shape, ListsOk, ListOk;
    ClosedIsPatched(s.c, tail, e.ts, e.fs, g);
    CloseKeepsWaiting(x, s, e, g, tail, w.jpc, w.jps);
    CloseOk(x, s, e, g, tail, w.jpc, w.jps);
    assert w' == ClosedState(x, s, e, g, tail, w.jpc, w.jps);
  }

  lemma FrameSame(c: seq<Instr>, kept: set<int>)
    ensures Frame(c, c, kept)
  {
  }

  lemma WfListsAre(x: Ctx, s: Gen, e: Exp)
    requires Wf(x, s, e)
    ensures ListOk(s.c, s.jpc, s.jps) && ListOk(s.c, e.t, e.ts) && ListOk(s.c, e.f, e.fs)
  {
  }

  /** The new jump is a list of its own. */
  lemma JumpApart(x: Ctx, s: Gen, e: Exp, i: Instr)
    requires Wf(x, s, e) && IsTest(i)
    ensures var c, j := TestedState(x, s, i).c, |s.c| + 1;
      ListOk(c, e.t, e.ts) && ListOk(c, e.f, e.fs) && ListOk(c, j, [j]) && Disjoint(e.ts, [j]) && Disjoint(e.fs, [j])
  {
    var c, j := TestedState(x, s, i).c, |s.c| + 1;
    hide Wf, Landed, TestedState, ListsOk, Frame, Targets, CodeOk;
    TestWf(x, s, e, i);
    ListsAre(x, TestedState(x, s, i), e);
    assert forall n :: n in e.ts || n in e.fs ==> n in Own(x, e);
    assert [j][1..] == [] && IsList(c, NO_JUMP, []);
    assert IsList(c, j, [j]);
  }

  lemma TestedIs(x: Ctx, b: Gen, i: Instr, s: Gen)
    requires Landed(b) == b.c && b.jps == [] && b.jpc == NO_JUMP && b.freereg == x.base
    requires |s.c| == |b.c| + 2 && s == b.(c := s.c) && s.c[..|b.c|] == b.c && s.c[|b.c|] == i
      && s.c[|b.c| + 1] == Jmp(NO_JUMP)
    ensures s == TestedState(x, b, i)
  {
    assert s.c == s.c[..|b.c|] + [i, Jmp(NO_JUMP)];
  }

  lemma KeptBare(x: Ctx, s0: Gen, e0: Exp, s: Gen, e: Exp, s': Gen)
    requires Kept(x, s0, e0, s, e) && Grows(s, s') && Frame(Bare(s, e).c, s'.c, x.outer)
    ensures Grows(s0, s') && Frame(Bare(s0, e0).c, s'.c, x.outer)
  {
    FrameTrans(Bare(s0, e0).c, Bare(s, e).c, s'.c, x.outer);
  }
}
