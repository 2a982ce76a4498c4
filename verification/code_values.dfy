/** Descriptors: what each kind turns into, and that nothing is lost on the way. */
module CodeValues {
  import opened CodeVm
  import opened CodeLists
  import opened CodeFlow
  import opened CodeSem
  import opened CodeEmit
  import opened CodeOps
  import opened CodeNil
  import opened CodeClose
  import opened CodeJoin
  import opened CodeCompare

  /** What a step of the generator leaves alone. */
  ghost predicate Kept(x: Ctx, s: Gen, e: Exp, s': Gen, e': Exp) {
    Grows(s, s') && Frame(Bare(s, e).c, Bare(s', e').c, x.outer)
  }

  lemma KeptTrans(x: Ctx, s: Gen, e: Exp, s1: Gen, e1: Exp, s2: Gen, e2: Exp)
    requires Kept(x, s, e, s1, e1) && Kept(x, s1, e1, s2, e2)
    ensures Kept(x, s, e, s2, e2)
  {
    FrameTrans(Bare(s, e).c, Bare(s1, e1).c, Bare(s2, e2).c, x.outer);
  }

  /** More constants and more registers do no harm. */
  lemma JudgeGrow(x: Ctx, s: Gen, e: Exp, s': Gen)
    requires Judge(x, s, e) && s' == s.(k := s'.k, max := s'.max, freereg := s'.freereg) && s.k <= s'.k
      && s.max <= s'.max
    ensures Judge(x, s', e)
  {
    forall env: Env, r: Regs | Fits(env, x, s', r) ensures JudgeAt(env, x, s', e, r) {
      assert Fits(env, x, s, r) && JudgeAt(env, x, s, e, r);
      assert Pend(x, s', e) == Pend(x, s, e);
    }
  }

  lemma WfGrow(x: Ctx, s: Gen, e: Exp, s': Gen)
    requires Wf(x, s, e) && s' == s.(k := s'.k, max := s'.max) && s.k <= s'.k && s.max <= s'.max
    ensures Wf(x, s', e)
  {
    assert Pend(x, s', e) == Pend(x, s, e);
  }

  lemma GoodGrow(x: Ctx, s: Gen, e: Exp, s': Gen)
    requires Good(x, s, e) && s' == s.(k := s'.k, max := s'.max) && s.k <= s'.k && s.max <= s'.max
    ensures Good(x, s', e) && Kept(x, s, e, s', e)
  {
    hide Wf, Judge;
    JudgeGrow(x, Bare(s, e), BareExp(s, e), Bare(s', e));
    WfGrow(x, Bare(s, e), BareExp(s, e), Bare(s', e));
  }

  /** The expression is described anew. */
  lemma Rekind(x: Ctx, s: Gen, e: Exp, k: Kind)
    requires Wf(x, s, e) && Judge(x, s, e) && KindOk(x, s, e.(k := k)) && RegsOk(x, s, e.(k := k))
    requires forall env: Env, r: Regs, v: Value :: s.k <= env.k && KindSem(env, e.k, r, v) ==> KindSem(env, k, r, v)
    ensures Wf(x, s, e.(k := k)) && Judge(x, s, e.(k := k))
  {
    JudgeWeaken(x, s, e, k);
    hide Judge;
    assert Pend(x, s, e.(k := k)) == Pend(x, s, e);
  }

  /** An instruction that will put the value in some register. */
  lemma RelocOk(x: Ctx, s: Gen, e: Exp, i: Instr)
    requires Wf(x, s, e) && Judge(x, s, e) && s.freereg == x.base
    requires forall env: Env, r: Regs, v: Value :: s.k <= env.k && KindSem(env, e.k, r, v) ==>
      KindSem(env, VInstr(i), r, v)
    ensures Wf(x, LandedState(s), e.(k := VInstr(i))) && Judge(x, LandedState(s), e.(k := VInstr(i)))
      && Frame(s.c, Landed(s), x.outer)
  {
    var e' := e.(k := VInstr(i));
    Rekind(x, s, e, VInstr(i));
    hide Judge, KindSem;
    LandJudge(x, s, e');
    LandWf(x, s, e');
    FrameLess(s.c, Landed(s), Own(x, e'), x.outer);
    hide CodeOk, ListsOk, Targets, Frame;
  }

  lemma LoadOk(x: Ctx, s: Gen, e: Exp, i: Instr, k': seq<Value>, max': int)
    requires Wf(x, s, e) && Judge(x, s, e) && Loads(x, s, e, i, k') && s.max <= max' && x.base < max'
    ensures Good(x, LoadedState(x, s, i, k', max'), e.(k := VNonReloc(x.base)))
    ensures Grows(s, LoadedState(x, s, i, k', max')) && Frame(s.c, LoadedState(x, s, i, k', max').c, x.outer)
  {
    hide Wf, Judge, Frame;
    LoadJudge(x, s, e, i, k', max');
    LoadWf(x, s, e, i, k', max');
    FrameLess(s.c, LoadedState(x, s, i, k', max').c, Own(x, e), x.outer);
  }

  lemma StretchOk(x: Ctx, s: Gen, e: Exp, max': int)
    requires Wf(x, s, e) && Judge(x, s, e) && CanStretch(x, s) && e.k == VNil && s.max <= max' && x.base < max'
    ensures Good(x, StretchedState(x, s, max'), e.(k := VNonReloc(x.base)))
    ensures Grows(s, StretchedState(x, s, max')) && Frame(s.c, StretchedState(x, s, max').c, x.outer)
  {
    hide Wf, Judge, Frame;
    StretchJudge(x, s, e, max');
    StretchWf(x, s, e, max');
    FrameLess(s.c, StretchedState(x, s, max').c, Own(x, e), x.outer);
  }

  lemma CloseOk(x: Ctx, s: Gen, e: Exp, g: Goals, tail: seq<Instr>, jpc': int, jps': seq<int>)
    requires Wf(x, s, e) && Judge(x, s, e) && Shape(x, s, e, g, tail, jps') && x.base < s.max
    requires ListOk(ClosedState(x, s, e, g, tail, jpc', jps').c, jpc', jps')
    ensures Good(x, ClosedState(x, s, e, g, tail, jpc', jps'), InBase(x))
    ensures Grows(s, ClosedState(x, s, e, g, tail, jpc', jps'))
      && Frame(s.c, ClosedState(x, s, e, g, tail, jpc', jps').c, x.outer)
  {
    hide Wf, Judge, Frame, Shape, ListOk;
    CloseJudge(x, s, e, g, tail, jpc', jps');
    CloseWf(x, s, e, g, tail, jpc', jps');
  }

  /** A leaf of the expression. */
  lemma LeafOk(y: Ctx, s: Gen, e: Expr, k: Kind)
    requires Wf(y, s, NO_EXP) && Judge(y, s, NO_EXP) && InScope(e, s.nact) && KindOk(For(y, e), s, NO_EXP.(k := k))
      && s.freereg == y.base
    requires !k.VReloc? && !k.VJmp? && !k.VInstr? && !k.VTest? && !k.VCond?
    requires forall env: Env, r: Regs :: s.k <= env.k ==> KindSem(env, k, r, Eval(env, e, r))
    ensures Good(For(y, e), s, NO_EXP.(k := k))
  {
    var x, d := For(y, e), NO_EXP.(k := k);
    assert Pend(x, s, d) == Pend(y, s, NO_EXP);
    forall env: Env, r: Regs | Fits(env, x, s, r) ensures JudgeAt(env, x, s, d, r) {
      assert Fits(env, y, s, r) && JudgeAt(env, y, s, NO_EXP, r);
      if y.q(env, r).Wants? {
        var o := Out(env, y, s, NO_EXP, r);
        EvalSame(env, e, y.q(env, r).r, o.r, y.base, s.nact);
      }
    }
  }

  // ---------------------------------------------------- from states to bare ones

  lemma GoodLists(x: Ctx, s: Gen, e: Exp)
    requires Good(x, s, e)
    ensures ListOk(s.c, s.jpc, s.jps) && 0 <= s.nact <= x.base
  {
  }

  lemma GoodPlain(x: Ctx, s: Gen, e: Exp)
    requires Good(x, s, e) && !e.k.VReloc? && !e.k.VJmp?
    ensures Wf(x, s, e) && Judge(x, s, e) && Bare(s, e) == s
  {
  }

  lemma PlainGood(x: Ctx, s: Gen, e: Exp)
    requires Wf(x, s, e) && Judge(x, s, e) && !e.k.VReloc? && !e.k.VJmp? && !e.k.VInstr? && !e.k.VTest? && !e.k.VCond?
    ensures Good(x, s, e) && Bare(s, e) == s
  {
  }

  ghost function Emitted(s: Gen, i: Instr): Gen { s.(c := Landed(s) + [i], jpc := NO_JUMP, jps := []) }

  lemma GoodReloc(x: Ctx, s: Gen, e: Exp, i: Instr)
    requires Wf(x, LandedState(s), e.(k := VInstr(i))) && Judge(x, LandedState(s), e.(k := VInstr(i)))
      && (i.Not? || i.GetUpval?)
    ensures Good(x, Emitted(s, i), e.(k := VReloc(|s.c|)))
      && Bare(Emitted(s, i), e.(k := VReloc(|s.c|))) == LandedState(s)
  {
    var s', e' := Emitted(s, i), e.(k := VReloc(|s.c|));
    assert s'.c[..|s'.c| - 1] == Landed(s);
    assert Bare(s', e') == LandedState(s) && BareExp(s', e') == e.(k := VInstr(i));
    hide Wf, Judge;
  }

  /** No jumps are waiting: landing changes nothing. */
  lemma LandedNone(s: Gen)
    requires s.jps == []
    ensures Landed(s) == s.c
  {
  }

  /** A relocatable value, taken apart. */
  lemma RelocParts(x: Ctx, s: Gen, e: Exp)
    requires Good(x, s, e) && e.k.VReloc?
    ensures var b, i := Bare(s, e), s.c[|s.c| - 1];
      && e.k.pc == |s.c| - 1 >= 0 && s == Emitted(b, i) && b.jps == [] && Landed(b) == b.c && s.c == b.c + [i]
      && (i.Not? || i.GetUpval?)
      && Wf(x, b, e.(k := VInstr(i))) && Judge(x, b, e.(k := VInstr(i))) && s.freereg == x.base
  {
    LandedNone(Bare(s, e));
    assert NO_JUMP == Bare(s, e).jpc;
    hide Judge, CodeOk, ListsOk, Targets;
  }

  lemma JmpParts(x: Ctx, s: Gen, e: Exp)
    requires Good(x, s, e) && e.k.VJmp?
    ensures |s.c| >= 2
    ensures var b, i := Bare(s, e), s.c[|s.c| - 2];
      && e.k.pc == |s.c| - 1 && i.Compare? && b.jps == [] && b.jpc == NO_JUMP && Landed(b) == b.c
      && s.c == b.c + [i, Jmp(NO_JUMP)] && s == b.(c := s.c)
      && Wf(x, b, e.(k := VTest(i))) && Judge(x, b, e.(k := VTest(i))) && s.freereg == x.base
  {
    LandedNone(Bare(s, e));
    assert NO_JUMP == Bare(s, e).jpc;
    assert s.c == s.c[..|s.c| - 2] + [s.c[|s.c| - 2], s.c[|s.c| - 1]];
    hide Judge, CodeOk, ListsOk, Targets;
  }

  lemma GoodJmp(x: Ctx, b: Gen, e: Exp, i: Instr, s: Gen)
    requires Wf(x, b, e.(k := VTest(i))) && Judge(x, b, e.(k := VTest(i))) && i.Compare? && b.jps == []
    requires s == b.(c := b.c + [i, Jmp(NO_JUMP)])
    ensures Good(x, s, e.(k := VJmp(|b.c| + 1))) && Bare(s, e.(k := VJmp(|b.c| + 1))) == b
  {
    assert s.c[..|s.c| - 2] == b.c;
    hide Wf, Judge;
  }
}
