/** A whole expression: what the finished code computes. */
module CodeRun {
  import opened CodeVm
  import opened CodeLists
  import opened CodeFlow
  import opened CodeSem
  import opened CodeEmit
  import opened CodeOps
  import opened CodeNil
  import opened CodeClose
  import opened CodeJoin
  import opened CodeValues
  import opened CodeSteps
  import opened CodeGen

  /** Code from org on is looked at: all of it is still to come or, when the instruction just
      emitted is a LOADNIL that may yet be stretched, that one too. */
  ghost predicate Begins(s: Gen, org: int) {
    && 0 <= s.nact <= s.freereg <= s.max && ListOk(s.c, s.jpc, s.jps)
    && -1 <= s.last <= |s.c| && (s.jps != [] ==> s.last == |s.c|)
    && (s.c != [] ==> !IsTest(s.c[|s.c| - 1])) && Start(s.c, org)
    && if s.c != [] && s.last < |s.c| && s.c[|s.c| - 1].LoadNil? then org == |s.c| - 1 else org == |s.c|
  }

  /** The registers when control gets to the end of the code so far. */
  function Before(c: seq<Instr>, org: int, r: Regs): Regs {
    if 0 <= org < |c| && c[org].LoadNil? then SetNils(r, c[org].a, c[org].b) else r
  }

  ghost function Start0(s: Gen, org: int): Ctx {
    Ctx(org, {}, s.freereg, (env: Env, r: Regs) => Wants(Nil, Before(s.c, org, r)))
  }

  lemma StartOk(s: Gen, org: int)
    requires Begins(s, org)
    ensures Wf(Start0(s, org), s, NO_EXP) && Judge(Start0(s, org), s, NO_EXP)
  {
    var y := Start0(s, org);
    ListJumps(s.c, s.jpc, s.jps);
    assert IsList(s.c, NO_JUMP, []);
    forall env: Env, r: Regs | Fits(env, y, s, r) ensures JudgeAt(env, y, s, NO_EXP, r) {
      if org < |s.c| {
        SetNilsGet(r, s.c[org].a, s.c[org].b, 0);
        assert Out(env, y, s, NO_EXP, r) == Run(env, s.c, Pend(y, s, NO_EXP), |s.c|, |s.c|, Before(s.c, org, r));
      }
    }
  }

  /** The machine, started at org with registers r, gets to the end of the code with v in
      register reg and the registers below as in r0. */
  ghost predicate Computes(env: Env, c: seq<Instr>, org: int, r: Regs, r0: Regs, reg: int, v: Value) {
    exists n: nat, r': Regs :: Steps(env, c, Vm(org, r), n) == Vm(|c|, r') && Same(r0, r', reg) && Get(r', reg) == v
  }

  lemma FinishOk(y: Ctx, a: Expr, s: Gen, s0: Gen, org: int)
    requires y == Start0(s0, org) && Good(For(y, a), s, InBase(y))
    ensures var c := Landed(s);
      forall env: Env, r: Regs :: Fits(env, y, s, r) ==>
        Computes(env, c, org, r, Before(s0.c, org, r), s0.freereg, Eval(env, a, Before(s0.c, org, r)))
  {
    var x, e, s' := For(y, a), InBase(y), LandedState(s);
    GoodPlain(x, s, e);
    LandJudge(x, s, e);
    assert Pend(x, s', e) == {};
    LandedLength(s);
    forall env: Env, r: Regs | Fits(env, y, s, r)
      ensures Computes(env, Landed(s), org, r, Before(s0.c, org, r), s0.freereg, Eval(env, a, Before(s0.c, org, r)))
    {
      assert Fits(env, x, s', r) && JudgeAt(env, x, s', e, r);
      assert y.q(env, r) == Wants(Nil, Before(s0.c, org, r));
      assert x.q(env, r) == Wants(Eval(env, a, Before(s0.c, org, r)), Before(s0.c, org, r));
      var o := Out(env, x, s', e, r);
      assert o.Fall?;
      var n := RunIsMachine(env, s'.c, org, |s'.c|, r);
      assert Steps(env, Landed(s), Vm(org, r), n) == Vm(|Landed(s)|, o.r);
    }
  }

  /** Compile an expression to the next register; the jumps that still wait then lead to
      whatever instruction comes next. For all registers to start from, all constants to be
      added later and all upvalues, the code leaves the value of the expression in that
      register and no register below it is changed. */
  method Expression(fs: FuncState, a: Expr, ghost org: int) returns (reg: int)
    requires fs.Valid() && Begins(fs.View(), org) && InScope(a, fs.nactvar)
    modifies fs
    ensures fs.Valid() && reg == old(fs.freereg) && fs.freereg == reg + 1 && fs.nactvar == old(fs.nactvar)
    ensures old(fs.k) <= fs.k && old(fs.maxstack) <= fs.maxstack
    ensures forall env: Env, r: Regs ::
      fs.k <= env.k && |r| >= fs.maxstack && (org == 0 ==>
        forall i :: fs.nactvar <= i < |r| && 0 <= i ==> r[i] == Nil) ==>
        var r0 := Before(old(fs.code), org, r);
        Computes(env, fs.code, org, r, r0, reg, Eval(env, a, r0))
  {
    ghost var s0 := fs.View();
    ghost var y := Start0(s0, org);
    StartOk(s0, org);
    hide Good, Wf, Judge, Frame, Kept, Computes, Begins;
    var d := fs.SubExpr(a, y);
    ghost var s1, d1 := fs.View(), d;
    d := fs.Exp2NextReg(d, For(y, a));
    KeptGrows(For(y, a), s1, d1, fs.View(), d);
    FinishOk(y, a, fs.View(), s0, org);
    GoodLists(For(y, a), fs.View(), d);
    fs.DischargeJpc();
    reg := d.k.r;
  }

  lemma KeptGrows(x: Ctx, s: Gen, e: Exp, s': Gen, e': Exp)
    requires Kept(x, s, e, s', e')
    ensures Grows(s, s')
  {
  }
}
