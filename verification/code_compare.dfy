/** Comparisons: both operands stay where they are while the test is made. */
module CodeCompare {
  import opened CodeVm
  import opened CodeLists
  import opened CodeFlow
  import opened CodeSem
  import opened CodeEmit
  import opened CodeOps
  import opened CodeClose
  import opened CodeJoin

  /** The value is in a register or is a constant. */
  function OpKind(o: Operand): Kind { if o.Reg? then VNonReloc(o.r) else VInstr(LoadK(0, o.k)) }

  ghost function Op(o: Operand): Exp { NO_EXP.(k := OpKind(o)) }

  ghost predicate HasOperand(x: Ctx, s: Gen, o: Operand) { Wf(x, s, Op(o)) && Judge(x, s, Op(o)) }

  /** The test that codecomp emits: > and >= are done by < and <= with the operands exchanged. */
  function CompareInstr(op: CmpOp, x: Operand, y: Operand): Instr {
    match op
    case EQ => Compare(Eq, true, x, y)
    case NE => Compare(Eq, false, x, y)
    case LT => Compare(Lt, true, x, y)
    case LE => Compare(Le, true, x, y)
    case GT => Compare(Lt, true, y, x)
    case GE => Compare(Le, true, y, x)
  }

  lemma CompareTaken(env: Env, op: CmpOp, x: Operand, y: Operand, r: Regs)
    ensures Taken(env, CompareInstr(op, x, y), r) == Related(env, op, Rk(env, r, x), Rk(env, r, y))
  {
  }

  /** The second operand is compiled above the first. */
  ghost function Second(y: Ctx, e1: Expr, s: Gen, o1: Operand): Ctx { Next2(For(y, e1), s, Op(o1), s.freereg) }

  lemma SecondOk(y: Ctx, e1: Expr, s: Gen, o1: Operand)
    requires HasOperand(For(y, e1), s, o1)
    ensures Wf(Second(y, e1, s, o1), s, NO_EXP) && Judge(Second(y, e1, s, o1), s, NO_EXP)
      && Second(y, e1, s, o1).outer == y.outer
  {
    NextOk(For(y, e1), s, Op(o1));
    assert Second(y, e1, s, o1).outer == y.outer;
  }

  lemma CompareJudge(y: Ctx, op: CmpOp, e1: Expr, e2: Expr, s: Gen, o1: Operand, s': Gen, o2: Operand)
    requires HasOperand(For(y, e1), s, o1) && HasOperand(For(Second(y, e1, s, o1), e2), s', o2)
    requires InScope(e1, s.nact) && InScope(e2, s.nact) && Grows(s, s')
    ensures Judge(For(y, Rel(op, e1, e2)), s', NO_EXP.(k := VTest(CompareInstr(op, o1, o2))))
  {
    var x1, x2, x := For(y, e1), For(Second(y, e1, s, o1), e2), For(y, Rel(op, e1, e2));
    var d := NO_EXP.(k := VTest(CompareInstr(op, o1, o2)));
    assert x2.outer == y.outer && Pend(x, s', d) == Pend(x2, s', Op(o2));
    assert y.base <= s.freereg && s.nact <= y.base && (o1.Reg? ==> o1.r < s.freereg);
    assert 0 <= y.org <= |s.c| && 0 <= y.org <= |s'.c|;
    hide Wf;
    forall env: Env, r: Regs | Fits(env, x, s', r) ensures JudgeAt(env, x, s', d, r) {
      assert Fits(env, x1, s, r) && JudgeAt(env, x1, s, Op(o1), r);
      assert Fits(env, x2, s', r) && JudgeAt(env, x2, s', Op(o2), r);
      assert Out(env, x, s', d, r) == Out(env, x2, s', Op(o2), r);
      if y.q(env, r).Wants? {
        assert Second(y, e1, s, o1).q(env, r) == AfterThis(s, x1.q(env, r), Out(env, x1, s, Op(o1), r));
        CompareFlow(env, y, op, e1, e2, s, o1, s', o2, x2, d, y.q(env, r).r, Out(env, x1, s, Op(o1), r),
          Out(env, x2, s', Op(o2), r));
      }
    }
  }

  lemma CompareFlow(env: Env, y: Ctx, op: CmpOp, e1: Expr, e2: Expr, s: Gen, o1: Operand, s': Gen, o2: Operand,
      x2: Ctx, d: Exp, r0: Regs, o: Outcome, o': Outcome)
    requires InScope(e1, s.nact) && InScope(e2, s.nact) && s.nact <= y.base <= s.freereg == x2.base
      && (o1.Reg? ==> o1.r < s.freereg)
    requires d == NO_EXP.(k := VTest(CompareInstr(op, o1, o2)))
    requires ExpFlow(env, For(y, e1), s, Op(o1), Eval(env, e1, r0), r0, o) && Arrives(s, o)
    requires ExpFlow(env, x2, s', Op(o2), Eval(env, e2, o.r), o.r, o')
    ensures ExpFlow(env, For(y, Rel(op, e1, e2)), s', d, Eval(env, Rel(op, e1, e2), r0), r0, o')
  {
    EvalSame(env, e2, r0, o.r, y.base, s.nact);
    assert Rk(env, o'.r, o1) == Rk(env, o.r, o1) == Eval(env, e1, r0);
    assert Rk(env, o'.r, o2) == Eval(env, e2, r0);
    CompareTaken(env, op, o1, o2, o'.r);
  }

  /** The state once the comparison is made, its jump and test still apart. */
  ghost function ComparedState(y: Ctx, s: Gen): Gen { LandedState(s).(freereg := y.base) }

  lemma CompareOk(y: Ctx, op: CmpOp, e1: Expr, e2: Expr, s: Gen, o1: Operand, s': Gen, o2: Operand)
    requires HasOperand(For(y, e1), s, o1) && HasOperand(For(Second(y, e1, s, o1), e2), s', o2)
    requires InScope(e1, s.nact) && InScope(e2, s.nact) && Grows(s, s') && Frame(s.c, s'.c, y.outer)
    ensures var d := NO_EXP.(k := VTest(CompareInstr(op, o1, o2)));
      Wf(For(y, Rel(op, e1, e2)), ComparedState(y, s'), d) && Judge(For(y, Rel(op, e1, e2)), ComparedState(y, s'), d)
    ensures Frame(s.c, ComparedState(y, s').c, y.outer)
  {
    var x2, x := For(Second(y, e1, s, o1), e2), For(y, Rel(op, e1, e2));
    var d := NO_EXP.(k := VTest(CompareInstr(op, o1, o2)));
    CompareJudge(y, op, e1, e2, s, o1, s', o2);
    CompareWf(y, x2, x, s, s', o1, o2, d);
    hide Wf, Judge, HasOperand, Frame, CodeOk, ListsOk, Targets;
    LandJudge(x, s'.(freereg := y.base), d);
    LandWf(x, s'.(freereg := y.base), d);
    CompareRegs(x, s'.(freereg := y.base), ComparedState(y, s'), d);
    FrameLess(s'.c, Landed(s'), Own(x, d), y.outer);
    FrameTrans(s.c, s'.c, Landed(s'), y.outer);
  }

  lemma CompareRegs(x: Ctx, s: Gen, s': Gen, d: Exp)
    requires Wf(x, s, d) && d.k.VTest? && s' == LandedState(s) && CodeOk(x, s') && ListsOk(x, s', d)
      && Targets(x, s', d)
    ensures Wf(x, s', d)
  {
    hide CodeOk, ListsOk, Targets;
  }

  lemma CompareWf(y: Ctx, x2: Ctx, x: Ctx, s: Gen, s': Gen, o1: Operand, o2: Operand, d: Exp)
    requires Wf(x2, s', Op(o2)) && x2.outer == x.outer + Elems([]) + Elems([]) && x2.org == x.org && d.ts == [] == d.fs
      && d.t == NO_JUMP == d.f && d.k.VTest?
    requires s.nact <= x.base <= s.freereg && s.freereg == x2.base && s'.nact == s.nact && 0 <= s.nact
      && y.base == x.base
    requires Judge(x, s', d)
    ensures Wf(x, s'.(freereg := y.base), d) && Judge(x, s'.(freereg := y.base), d)
  {
    var s1 := s'.(freereg := y.base);
    assert Pend(x, s1, d) == Pend(x2, s', Op(o2)) && Pend(x, s', d) == Pend(x, s1, d);
    assert x.outer == x2.outer;
    assert ListsOk(x, s1, d) && CodeOk(x, s1);
    hide ListsOk, CodeOk, Pend;
    assert Targets(x, s1, d);
    hide Targets;
    forall env: Env, r: Regs | Fits(env, x, s1, r) ensures JudgeAt(env, x, s1, d, r) {
      assert Fits(env, x, s', r) && JudgeAt(env, x, s', d, r);
    }
  }
}
