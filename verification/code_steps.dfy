/** One step of the code generator at a time, from good states to good states. */
module CodeSteps {
  import opened CodeVm
  import opened CodeLists
  import opened CodeFlow
  import opened CodeSem
  import opened CodeEmit
  import opened CodeOps
  import opened CodeNil
  import opened CodeClose
  import opened CodeJoin
  import opened CodeCompare
  import opened CodeValues

  // ------------------------------------------------------ luaK_dischargevars

  lemma LocalOk(x: Ctx, s: Gen, e: Exp)
    requires Good(x, s, e) && e.k.VLocal?
    ensures var d := e.(k := VNonReloc(e.k.r)); Good(x, s, d) && Kept(x, s, e, s, d)
  {
    var k := VNonReloc(e.k.r);
    GoodPlain(x, s, e);
    hide Judge, CodeOk, ListsOk, Targets;
    Rekind(x, s, e, k);
    PlainGood(x, s, e.(k := k));
  }

  lemma UpvalOk(x: Ctx, s: Gen, e: Exp)
    requires Good(x, s, e) && e.k.VUpval?
    ensures var s', d := Emitted(s, GetUpval(0, e.k.u)), e.(k := VReloc(|s.c|)); Good(x, s', d) && Kept(x, s, e, s', d)
  {
    var i := GetUpval(0, e.k.u);
    GoodPlain(x, s, e);
    hide Judge, CodeOk, ListsOk, Targets, Landed;
    RelocOk(x, s, e, i);
    GoodReloc(x, s, e, i);
  }

  // ------------------------------------------------------------ discharge2reg

  /** The state before register base was reserved for the value. */
  ghost function Held(x: Ctx, s: Gen, k: Kind): Gen {
    s.(freereg := if k == VNonReloc(x.base) then x.base + 1 else x.base)
  }

  lemma LoadStep(x: Ctx, s: Gen, e: Exp, i: Instr, s': Gen)
    requires Good(x, s, e) && !e.k.VReloc? && !e.k.VJmp? && Loads(x, s, e, i, s'.k) && x.base < s.max
    requires s' == Emitted(s, i).(k := s'.k, freereg := x.base + 1)
    ensures var d := e.(k := VNonReloc(x.base)); Good(x, s', d) && Kept(x, s, e, s', d)
  {
    hide Good, Judge, Wf, Loads, Landed;
    GoodPlain(x, s, e);
    LoadOk(x, s, e, i, s'.k, s.max);
  }

  function WithA(i: Instr, a: int): Instr
    requires i.Not? || i.GetUpval?
  {
    if i.Not? then Not(a, i.b) else GetUpval(a, i.i)
  }

  lemma RelocStep(x: Ctx, s: Gen, e: Exp, s': Gen)
    requires Good(x, s, e) && e.k.VReloc? && x.base < s.max
    requires |s.c| > 0 && (s.c[|s.c| - 1].Not? || s.c[|s.c| - 1].GetUpval?)
    requires s' == s.(c := s.c[|s.c| - 1 := WithA(s.c[|s.c| - 1], x.base)], freereg := x.base + 1)
    ensures var d := e.(k := VNonReloc(x.base)); Good(x, s', d) && Kept(x, s, e, s', d)
  {
    hide Good, Judge, Wf, Landed, Loads, Frame;
    var b, i := Bare(s, e), s.c[|s.c| - 1];
    RelocParts(x, s, e);
    RelocLoads(x, b, e.(k := VInstr(i)), i);
    LoadOk(x, b, e.(k := VInstr(i)), WithA(i, x.base), b.k, b.max);
    assert b.c + [WithA(i, x.base)] == s'.c;
  }

  lemma RelocLoads(x: Ctx, s: Gen, e: Exp, i: Instr)
    requires e.k == VInstr(i) && (i.Not? || i.GetUpval?) && Wf(x, s, e)
    ensures Loads(x, s, e, WithA(i, x.base), s.k)
  {
    hide ListsOk, CodeOk, Targets;
  }

  /** The three ways of luaK_nil. */
  lemma NilStep(x: Ctx, s: Gen, e: Exp, s': Gen)
    requires Good(x, s, e) && e.k == VNil && x.base < s.max && s'.freereg == x.base + 1
    requires
      || (s.c == [] && s' == s.(freereg := x.base + 1))
      || (CanStretch(x, s) && s' == StretchedState(x, s, s.max))
      || s' == Emitted(s, LoadNil(x.base, x.base)).(freereg := x.base + 1)
    ensures var d := e.(k := VNonReloc(x.base)); Good(x, s', d) && Kept(x, s, e, s', d)
  {
    hide Good, Judge, Wf, Landed;
    GoodPlain(x, s, e);
    if s.c == [] && s' == s.(freereg := x.base + 1) {
      CleanJudge(x, s, e, s.max);
      PlainGood(x, s', e.(k := VNonReloc(x.base)));
    } else if CanStretch(x, s) && s' == StretchedState(x, s, s.max) {
      hide CanStretch;
      StretchOk(x, s, e, s.max);
    } else {
      LoadStep(x, s, e, LoadNil(x.base, x.base), s');
    }
  }

  lemma LoadsFor(x: Ctx, s: Gen, e: Exp, i: Instr, k': seq<Value>)
    requires Good(x, s, e) && s.k <= k'
    requires
      || (e.k == VTrue && i == LoadBool(x.base, true, false)) || (e.k == VFalse && i == LoadBool(x.base, false, false))
      || (e.k.VK? && i == LoadK(x.base, e.k.n))
      || (e.k.VKNum? && i.LoadK? && i.a == x.base && i.k < |k'| && k'[i.k] == e.k.v)
      || (e.k.VNonReloc? && i == Move(x.base, e.k.r))
    ensures Loads(x, s, e, i, k')
  {
    GoodLists(x, s, e);
    assert Bare(s, e) == s && BareExp(s, e) == e;
    hide Good;
    forall env: Env, r: Regs, v: Value | k' <= env.k && |r| > x.base && KindSem(env, e.k, r, v)
        ensures Get(Do(env, i, r), x.base) == v {
    }
  }

  // --------------------------------------------------------------- exp2reg

  /** An expression has no jumps just when its two lists start alike. */
  lemma NoJumps(x: Ctx, s: Gen, e: Exp)
    requires ListsOk(x, s, e)
    ensures (e.t == e.f <==> e.ts == [] && e.fs == []) && (e.t == e.f ==> e.t == NO_JUMP)
  {
    ListJumps(s.c, e.t, e.ts);
    ListJumps(s.c, e.f, e.fs);
    if e.ts != [] && e.fs != [] {
      assert e.ts[0] in e.ts && e.fs[0] in e.fs;
    }
  }

  /** Jumps waiting at the end are not touched when the two lists are patched. */
  lemma CloseKeepsWaiting(x: Ctx, s: Gen, e: Exp, g: Goals, tail: seq<Instr>, jpc': int, jps': seq<int>)
    requires ListsOk(x, s, e) && ListOk(s.c + tail, jpc', jps') && forall n :: n in jps' ==> n >= |s.c| || n in s.jps
    ensures ListOk(Closed(s.c, e.ts, e.fs, g) + tail, jpc', jps')
  {
    ListJumps(s.c + tail, jpc', jps');
    assert forall n :: n in s.jps ==> n !in e.ts && n !in e.fs;
    hide ListsOk;
    forall n | n in jps' ensures (s.c + tail)[n] == (Closed(s.c, e.ts, e.fs, g) + tail)[n] {
      if n < |s.c| {
        assert Closed(s.c, e.ts, e.fs, g)[n] == ClosedAt(s.c, e.ts, e.fs, g, n);
      }
    }
    ListFrame(s.c + tail, Closed(s.c, e.ts, e.fs, g) + tail, jpc', jps');
  }

  /** A comparison whose value is wanted: its jump joins those for true. */
  lemma JmpStep(x: Ctx, s: Gen, e: Exp)
    requires Good(x, s, e) && e.k.VJmp?
    ensures var b := Bare(s, e); var e1 := BranchExp(b, e, true, VFalse);
      var s1 := s.(c := ConcatCode(s.c, e.ts, e.k.pc, [e.k.pc]));
      && Wf(x, s1, e1) && Judge(x, s1, e1) && s1.jps == [] && Frame(b.c, s1.c, x.outer) && e.k.pc == |b.c| + 1
      && ListOk(s.c, e.t, e.ts) && ListOk(s.c, e.k.pc, [e.k.pc]) && Disjoint(e.ts, [e.k.pc])
      && !HasTestSet(s1.c, e.k.pc)
  {
    var b, i := Bare(s, e), s.c[|s.c| - 2];
    var eb := e.(k := VTest(i));
    hide Good, Judge, Wf, Frame, ListOk, Decides, Landed, ConcatCode;
    JmpParts(x, s, e);
    FalseDecides(b, i);
    BranchOk(x, b, eb, i, true, VFalse);
    assert TestedState(x, b, i) == s;
    assert BranchExp(b, eb, true, VFalse) == BranchExp(b, e, true, VFalse);
    assert s.c[..|b.c|] == b.c;
    JmpLists(x, b, eb, s);
    JmpNode(s.c, e.ts, e.k.pc);
  }

  lemma FalseDecides(s: Gen, i: Instr)
    requires i.Compare?
    ensures Decides(s, VTest(i), i, true, VFalse)
  {
  }

  lemma JmpNode(c: seq<Instr>, ts: seq<int>, pc: int)
    requires |c| >= 2 && pc == |c| - 1 && c[pc] == Jmp(NO_JUMP) && !c[pc - 1].TestSet? && forall n :: n in ts ==>
      n < pc - 1
    ensures ListOk(c, pc, [pc]) && Disjoint(ts, [pc]) && !HasTestSet(ConcatCode(c, ts, pc, [pc]), pc)
  {
    assert [pc][1..] == [];
    assert ts != [] ==> ts[|ts| - 1] in ts;
  }

  lemma JmpLists(x: Ctx, b: Gen, e: Exp, s: Gen)
    requires |b.c| <= |s.c| && s.c[..|b.c|] == b.c && Wf(x, b, e)
    ensures ListOk(s.c, e.t, e.ts) && forall n :: n in e.ts ==> n < |b.c|
  {
    ListsAre(x, b, e);
    hide Wf;
    assert forall n :: 0 <= n < |b.c| ==> s.c[n] == s.c[..|b.c|][n];
    ListFrame(b.c, s.c, e.t, e.ts);
  }

  // ------------------------------------------------- luaK_goiftrue, luaK_goiffalse

  /** A test for the value in a register; the jump after it may carry the value. */
  lemma TestSetDecides(s: Gen, r: int, cond: bool)
    ensures Decides(s, VNonReloc(r), TestSet(NO_REG, r, cond), cond, VCond(!cond))
  {
  }

  /** A negation is tested by testing its operand. */
  lemma NotDecides(s: Gen, a: int, b: int, cond: bool)
    ensures Decides(s, VInstr(Not(a, b)), Test(b, !cond), cond, VCond(!cond))
  {
  }

  function Inverted(i: Instr): Instr
    requires i.Compare?
  {
    Compare(i.op, !i.cond, i.x, i.y)
  }

  lemma CompareDecides(s: Gen, i: Instr)
    requires i.Compare?
    ensures Decides(s, VTest(i), i, true, VCond(false)) && Decides(s, VTest(i), Inverted(i), false, VCond(true))
  {
  }

  /** A constant decides by itself. */
  lemma ConstantStep(x: Ctx, s: Gen, e: Exp, b: bool)
    requires Good(x, s, e) && if b then e.k.VK? || e.k.VKNum? || e.k.VTrue? else e.k.VNil? || e.k.VFalse?
    ensures Wf(x, s, e.(k := VCond(b))) && Judge(x, s, e.(k := VCond(b)))
  {
    GoodPlain(x, s, e);
    hide Judge, CodeOk, ListsOk, Targets;
    Rekind(x, s, e, VCond(b));
  }

  /** After test and jump, the other list is closed. */
  lemma GoStep(x: Ctx, s: Gen, e: Exp, i: Instr, b: bool)
    requires Wf(x, s, e) && Judge(x, s, e) && Decides(s, e.k, i, !b, VCond(b))
    ensures var s1, e1 := BranchState(x, s, e, i, !b), BranchExp(s, e, !b, VCond(b));
      && Wf(x, HereState(s1, e1, b), HereExp(e1, b)) && Judge(x, HereState(s1, e1, b), HereExp(e1, b))
      && ListsOk(x, s1, e1) && Frame(s.c, HereState(s1, e1, b).c, x.outer)
  {
    var s1, e1 := BranchState(x, s, e, i, !b), BranchExp(s, e, !b, VCond(b));
    hide Wf, Judge, Decides, Frame, ListsOk;
    BranchOk(x, s, e, i, !b, VCond(b));
    HereOk(x, s1, e1, b);
    FrameTrans(s.c, s1.c, HereState(s1, e1, b).c, x.outer);
    WfLists(x, s1, e1);
  }

  lemma WfLists(x: Ctx, s: Gen, e: Exp)
    requires Wf(x, s, e)
    ensures ListsOk(x, s, e) && CodeOk(x, s) && RegsOk(x, s, e)
  {
  }

  lemma ListsAre(x: Ctx, s: Gen, e: Exp)
    requires ListsOk(x, s, e)
    ensures ListOk(s.c, s.jpc, s.jps) && ListOk(s.c, e.t, e.ts) && ListOk(s.c, e.f, e.fs)
    ensures Disjoint(s.jps, e.ts) && Disjoint(s.jps, e.fs) && Disjoint(e.ts, e.fs)
    ensures AreJumps(s.c, s.jps) && AreJumps(s.c, e.ts) && AreJumps(s.c, e.fs)
  {
    ListJumps(s.c, s.jpc, s.jps);
    ListJumps(s.c, e.t, e.ts);
    ListJumps(s.c, e.f, e.fs);
  }

  // ---------------------------------------------------------------- codenot

  ghost function Unset2(s: Gen, e: Exp): Gen { s.(c := Unset(s.c, e.ts + e.fs)) }

  lemma NotConstantStep(x: Ctx, s: Gen, e: Exp)
    requires Good(x, s, e) && (e.k.VNil? || e.k.VFalse? || e.k.VK? || e.k.VKNum? || e.k.VTrue?)
    ensures var d := Swapped(e, if e.k.VNil? || e.k.VFalse? then VTrue else VFalse);
      Good(NotCtx(x), Unset2(s, e), d) && Kept(x, s, e, Unset2(s, e), d)
  {
    var k := if e.k.VNil? || e.k.VFalse? then VTrue else VFalse;
    GoodPlain(x, s, e);
    hide Judge, CodeOk, ListsOk, Targets, Frame;
    NotOk(x, s, e, k);
    PlainGood(NotCtx(x), Unset2(s, e), Swapped(e, k));
  }

  lemma NotJmpStep(x: Ctx, s: Gen, e: Exp, s': Gen)
    requires Good(x, s, e) && e.k.VJmp? && |s.c| >= 2 && s.c[|s.c| - 2].Compare?
    requires s' == s.(c := Unset(Bare(s, e).c, e.ts + e.fs) + [Inverted(s.c[|s.c| - 2]), Jmp(NO_JUMP)])
    ensures var d := Swapped(e, e.k); Good(NotCtx(x), s', d) && Kept(x, s, e, s', d)
  {
    var b, i := Bare(s, e), s.c[|s.c| - 2];
    var eb := e.(k := VTest(i));
    JmpParts(x, s, e);
    hide Judge, CodeOk, ListsOk, Targets, Frame;
    NotOk(x, b, eb, VTest(Inverted(i)));
    hide Wf, Good;
    GoodJmp(NotCtx(x), Unset2(b, eb), Swapped(e, e.k), Inverted(i), s');
    NotInverted(x, b, eb, i);
  }

  lemma NotInverted(x: Ctx, b: Gen, eb: Exp, i: Instr)
    requires i.Compare?
    ensures forall env: Env, r: Regs, v: Value :: KindSem(env, VTest(i), r, v) ==>
      KindSem(env, VTest(Inverted(i)), r, Bool(!Truthy(v)))
  {
  }

  /** NOT is emitted for a value in register r. */
  lemma NotRegStep(x: Ctx, s: Gen, e: Exp, s': Gen)
    requires e.k.VNonReloc? && Good(x, s, e)
    requires s' == Gen(Unset(Landed(s), e.ts + e.fs) + [Not(0, e.k.r)], NO_JUMP, [], s.k, x.base, s.nact, s.max, s.last)
    ensures var d := Swapped(e, VReloc(|s.c|)); Good(NotCtx(x), s', d) && Kept(x, s, e, s', d)
  {
    hide Good, Wf, Judge, CodeOk, ListsOk, Targets, Frame, Landed, KindSem;
    var i := Not(0, e.k.r);
    var s1 := LandedState(s).(freereg := x.base);
    GoodPlain(x, s, e);
    LandedLength(s);
    NotLanded(x, s, e, s1);
    LandedNone(Unset2(s1, e));
    GoodReloc(NotCtx(x), Unset2(s1, e), Swapped(e, VInstr(i)), i);
  }

  lemma NotLanded(x: Ctx, s: Gen, e: Exp, s1: Gen)
    requires e.k.VNonReloc? && Wf(x, s, e) && Judge(x, s, e) && s1 == LandedState(s).(freereg := x.base)
    ensures var e' := Swapped(e, VInstr(Not(0, e.k.r)));
      Wf(NotCtx(x), Unset2(s1, e), e') && Judge(NotCtx(x), Unset2(s1, e), e') && Frame(s.c, Unset2(s1, e).c, x.outer)
  {
    hide Good, Wf, Judge, CodeOk, ListsOk, Targets, Frame, Landed, KindSem, Unset;
    LandJudge(x, s, e);
    LandWf(x, s, e);
    NotRegJudge(x, LandedState(s), s1, e);
    WfLists(x, s, e);
    NotReg(e.k.r);
    NotOk(x, s1, e, VInstr(Not(0, e.k.r)));
    FrameLess(s.c, Landed(s), Own(x, e), x.outer);
    FrameTrans(s.c, Landed(s), Unset2(s1, e).c, x.outer);
  }

  lemma NotReg(r: int)
    ensures forall env: Env, rs: Regs, v: Value :: KindSem(env, VNonReloc(r), rs, v) ==>
      KindSem(env, VInstr(Not(0, r)), rs, Bool(!Truthy(v)))
  {
  }

  lemma LandedLength(s: Gen)
    ensures |Landed(s)| == |s.c|
  {
  }

  /** Freeing the register does not matter. */
  lemma NotRegJudge(x: Ctx, s: Gen, s': Gen, e: Exp)
    requires CodeOk(x, s) && ListsOk(x, s, e) && Targets(x, s, e) && Judge(x, s, e) && s' == s.(freereg := x.base)
    ensures CodeOk(x, s') && ListsOk(x, s', e) && Targets(x, s', e) && Judge(x, s', e)
  {
    JudgeGrow(x, s, e, s');
    assert Pend(x, s', e) == Pend(x, s, e);
    hide Judge;
  }

  /** Negating the value of an expression. */
  lemma NegOk(y: Ctx, s: Gen, e: Exp, a: Expr)
    requires Good(NotCtx(For(y, a)), s, e)
    ensures Good(For(y, Neg(a)), s, e)
  {
    var x, x' := NotCtx(For(y, a)), For(y, Neg(a));
    var b, be := Bare(s, e), BareExp(s, e);
    forall env: Env, r: Regs ensures x'.q(env, r) == x.q(env, r) {
      assert For(y, a).q(env, r) == ValueOf(env, a, y.q(env, r));
    }
    JudgeCong(x, x', b, be);
    hide Judge;
    assert Pend(x', b, be) == Pend(x, b, be);
  }

  // ------------------------------------------------------------ small facts

  lemma KeptSame(x: Ctx, s: Gen, e: Exp)
    ensures Kept(x, s, e, s, e)
  {
  }

  lemma LocalIsBelow(x: Ctx, s: Gen, e: Exp)
    requires Good(x, s, e)
    ensures e.k.VLocal? ==> e.k.r < x.base
  {
    hide Judge, CodeOk, ListsOk, Targets;
  }

  lemma LandedFrees(s: Gen, fr: int)
    ensures Landed(s.(freereg := fr)) == Landed(s)
  {
  }

  lemma LandedKs(s: Gen, s': Gen)
    requires s'.c == s.c && s'.jps == s.jps
    ensures Landed(s') == Landed(s)
  {
  }

  lemma OnlyJmp(x: Ctx, s: Gen, e: Exp)
    requires Good(x, s, e)
    requires !e.k.VNil? && !e.k.VTrue? && !e.k.VFalse? && !e.k.VK? && !e.k.VKNum? && !e.k.VLocal? && !e.k.VUpval?
      && !e.k.VNonReloc? && !e.k.VReloc?
    ensures e.k.VJmp?
  {
  }

  /** Unless the value is in a register of its own, none is in use. */
  lemma FreeIsBase(x: Ctx, s: Gen, e: Exp)
    requires Good(x, s, e)
    ensures s.freereg == if e.k == VNonReloc(x.base) then x.base + 1 else x.base
    ensures e.k.VNonReloc? && e.k.r >= s.nact ==> e.k.r == x.base
    ensures e.k.VNonReloc? ==> 0 <= e.k.r < s.freereg
    ensures s.freereg <= s.max && s.nact <= x.base
  {
    hide Judge, CodeOk, ListsOk, Targets;
  }

  lemma ListPrefix(c: seq<Instr>, c': seq<Instr>, l: int, s: seq<int>)
    requires ListOk(c, l, s) && c <= c'
    ensures ListOk(c', l, s)
  {
    ListJumps(c, l, s);
    ListFrame(c, c', l, s);
  }

  /** Jumps of the two lists are sent forward. */
  lemma ShapeTargets(x: Ctx, s: Gen, e: Exp, g: Goals, tail: seq<Instr>, jps': seq<int>)
    requires Shape(x, s, e, g, tail, jps') && ListsOk(x, s, e) && CodeOk(x, s)
    ensures forall n :: n in e.fs ==> n < Target(s.c + tail, n, g.final, g.pf)
    ensures forall n, c :: n in e.ts && HasTestSet(c, n) == HasTestSet(s.c + tail, n) ==>
      n < Target(c, n, g.final, g.pt)
    ensures AreJumps(s.c, e.ts) && AreJumps(s.c, e.fs) && Disjoint(e.ts, e.fs)
  {
    ListsAre(x, s, e);
  }

  /** Patching one list leaves the other a list. */
  lemma PatchedList(c: seq<Instr>, fs: seq<int>, ts: seq<int>, t: int, vtarget: int, reg: int, dtarget: int)
    requires ListOk(c, t, ts) && Disjoint(ts, fs) && AreJumps(c, fs)
    ensures var c' := Patched(c, fs, vtarget, reg, dtarget);
      ListOk(c', t, ts) && forall n :: n in ts ==> HasTestSet(c', n) == HasTestSet(c, n)
  {
    var c' := Patched(c, fs, vtarget, reg, dtarget);
    ListJumps(c, t, ts);
    forall n | n in ts ensures c'[n] == c[n] && HasTestSet(c', n) == HasTestSet(c, n) {
      assert c'[n] == PatchedAt(c, fs, vtarget, reg, dtarget, n);
      if n > 0 {
        assert c'[n - 1] == PatchedAt(c, fs, vtarget, reg, dtarget, n - 1);
      }
    }
    ListFrame(c, c', t, ts);
  }

  lemma BaseBelowMax(x: Ctx, s: Gen, e: Exp)
    requires Good(x, s, e)
    ensures s.freereg <= s.max
  {
    hide Judge, CodeOk, ListsOk, Targets;
  }

  lemma GoodBare(x: Ctx, s: Gen, e: Exp)
    requires Good(x, s, e)
    ensures ListsOk(x, Bare(s, e), BareExp(s, e))
  {
    hide Judge, CodeOk, ListsOk, Targets;
  }

  lemma KeptFrom(x: Ctx, s: Gen, e: Exp, s1: Gen, s2: Gen, d: Exp)
    requires Frame(Bare(s, e).c, s1.c, x.outer) && Frame(s1.c, s2.c, x.outer) && Grows(s, s2) && d.k.VNonReloc?
    ensures Kept(x, s, e, s2, d)
  {
    FrameTrans(Bare(s, e).c, s1.c, s2.c, x.outer);
  }

  lemma KeptOn(x: Ctx, s: Gen, e: Exp, s1: Gen, e1: Exp, s2: Gen, d: Exp)
    requires Kept(x, s, e, s1, e1) && e1.k.VNonReloc? && d.k.VNonReloc? && Grows(s1, s2)
      && (s2 == s1 || Frame(s1.c, s2.c, x.outer))
    ensures Kept(x, s, e, s2, d)
  {
    if s2 != s1 {
      FrameTrans(Bare(s, e).c, s1.c, s2.c, x.outer);
    }
  }

  // ------------------------------------------------- the tail of a descriptor

  /** The instructions that belong to a descriptor and may still change. */
  ghost function Tail(s: Gen, e: Exp): seq<Instr> {
    if |Bare(s, e).c| <= |s.c| then s.c[|Bare(s, e).c|..] else []
  }

  lemma BareTail(s: Gen, e: Exp)
    ensures s.c == Bare(s, e).c + Tail(s, e)
  {
  }

  /** Changing the code in front of the tail, and the lists. */
  lemma Retail(x2: Ctx, x: Ctx, s: Gen, e: Exp, c': seq<Instr>, e': Exp, s': Gen)
    requires Good(x2, s, e) && e'.k == e.k && |c'| == |Bare(s, e).c| && s' == s.(c := c' + Tail(s, e))
    requires Wf(x, Bare(s, e).(c := c'), e'.(k := BareExp(s, e).k))
      && Judge(x, Bare(s, e).(c := c'), e'.(k := BareExp(s, e).k))
    ensures Good(x, s', e') && Bare(s', e').c == c'
  {
    hide Good, Wf, Judge, Bare, BareExp, Tail;
    BareTail(s, e);
    assert |s'.c| == |s.c| && forall i :: |c'| <= i < |s.c| ==> s'.c[i] == s.c[i];
    RetailBare(s, e, c', e', s');
    RetailGood(x2, x, s, e, e', s');
  }

  lemma RetailGood(x2: Ctx, x: Ctx, s: Gen, e: Exp, e': Exp, s': Gen)
    requires Good(x2, s, e) && e'.k == e.k && |s'.c| == |s.c| && s'.jps == s.jps
    requires e.k.VReloc? && |s.c| >= 1 ==> s'.c[|s.c| - 1] == s.c[|s.c| - 1]
    requires e.k.VJmp? && |s.c| >= 2 ==> s'.c[|s.c| - 1] == s.c[|s.c| - 1] && s'.c[|s.c| - 2] == s.c[|s.c| - 2]
    requires Wf(x, Bare(s', e'), BareExp(s', e')) && Judge(x, Bare(s', e'), BareExp(s', e'))
    ensures Good(x, s', e')
  {
    hide Wf, Judge, Bare, BareExp;
  }

  lemma RetailBare(s: Gen, e: Exp, c': seq<Instr>, e': Exp, s': Gen)
    requires e'.k == e.k && |c'| == |Bare(s, e).c| && s' == s.(c := c' + Tail(s, e))
    requires |s'.c| == |s.c| && forall i :: |c'| <= i < |s.c| ==> s'.c[i] == s.c[i]
    ensures Bare(s', e') == Bare(s, e).(c := c') && BareExp(s', e') == e'.(k := BareExp(s, e).k)
    ensures e.k.VReloc? && |s.c| >= 1 ==> s'.c[|s.c| - 1] == s.c[|s.c| - 1]
    ensures e.k.VJmp? && |s.c| >= 2 ==> s'.c[|s.c| - 1] == s.c[|s.c| - 1] && s'.c[|s.c| - 2] == s.c[|s.c| - 2]
    ensures s'.jps == s.jps
  {
  }

  lemma ConcatTail(c: seq<Instr>, tail: seq<Instr>, s1: seq<int>, l2: int, s2: seq<int>)
    requires forall n :: n in s1 ==> 0 <= n < |c|
    ensures ConcatCode(c + tail, s1, l2, s2) == ConcatCode(c, s1, l2, s2) + tail && |ConcatCode(c, s1, l2, s2)| == |c|
  {
    if s1 != [] {
      assert s1[|s1| - 1] in s1;
    }
  }

  /** Taking the values off one list leaves the other a list. */
  lemma UnsetKeeps(c: seq<Instr>, s: seq<int>, l: int, s2: seq<int>)
    requires ListOk(c, l, s2)
    ensures ListOk(Unset(c, s), l, s2)
  {
    ListJumps(c, l, s2);
    ListFrame(c, Unset(c, s), l, s2);
  }

  lemma BareLists(x: Ctx, s: Gen, e: Exp)
    requires Good(x, s, e)
    ensures ListOk(Bare(s, e).c, e.t, e.ts) && ListOk(Bare(s, e).c, e.f, e.fs) && Disjoint(e.ts, e.fs)
    ensures AreJumps(Bare(s, e).c, e.ts) && AreJumps(Bare(s, e).c, e.fs)
  {
    hide Wf, Judge;
    GoodBare(x, s, e);
    ListsAre(x, Bare(s, e), BareExp(s, e));
  }

  lemma LandedLists(x: Ctx, s: Gen, e: Exp)
    requires Wf(x, s, e)
    ensures ListOk(Landed(s), e.t, e.ts) && ListOk(Landed(s), e.f, e.fs)
  {
    hide Wf, ListsOk;
    LandWf(x, s, e);
    ListsAre(x, LandedState(s), e);
  }
}
