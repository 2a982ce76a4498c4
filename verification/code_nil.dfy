/** luaK_nil: a nil may be had by stretching the LOADNIL just emitted. */
module CodeNil {
  import opened CodeVm
  import opened CodeLists
  import opened CodeFlow
  import opened CodeSem
  import opened CodeEmit
  import opened CodeOps

  lemma SetNilsGet(r: Regs, a: int, b: int, i: int)
    ensures |SetNils(r, a, b)| == |r| && (a <= i <= b && 0 <= i < |r| ==> SetNils(r, a, b)[i] == Nil)
    decreases b - a
  {
    if a < b {
      SetNilsGet(r, a, b - 1, i);
    }
  }

  function Stretched(i: Instr, base: int): Instr
    requires i.LoadNil?
  {
    if base > i.b then LoadNil(i.a, base) else i
  }

  /** No jump of the code from org on leads to its end. */
  ghost predicate NoneToEnd(c: seq<Instr>, pend: set<int>, org: int) {
    forall i :: org <= i < |c| && 0 <= i ==>
      && (c[i].Jmp? && i !in pend ==> i + 1 + c[i].sbx < |c|) && (c[i].LoadBool? && c[i].skip ==> i + 2 < |c|)
  }

  ghost predicate StretchedRun(o: Outcome, o': Outcome, base: int) {
    if o.Fall? then o' == Fall(Set(o.r, base, Nil)) else o' == o
  }

  lemma {:induction false} NilRun(env: Env, c: seq<Instr>, c': seq<Instr>, pend: set<int>, pc: int, r: Regs, base: int)
    requires 0 <= pc < |c| && NoneToEnd(c, pend, pc) && Run(env, c, pend, pc, |c|, r) != Stuck
    requires var i := c[|c| - 1]; i.LoadNil? && i.a <= base <= i.b + 1 && c' == c[|c| - 1 := Stretched(i, base)]
    ensures StretchedRun(Run(env, c, pend, pc, |c|, r), Run(env, c', pend, pc, |c|, r), base)
    decreases |c| - pc
  {
    var i := c[pc];
    if pc == |c| - 1 {
      SetNilsGet(r, i.a, i.b, base);
      assert Run(env, c, pend, pc, |c|, r) == Fall(SetNils(r, i.a, i.b));
      assert Run(env, c', pend, pc, |c|, r) == Fall(SetNils(r, i.a, c'[pc].b));
    } else if IsTest(i) {
      assert Run(env, c, pend, pc, |c|, r) == RunTest(env, c, pend, pc, |c|, r);
      assert Run(env, c', pend, pc, |c|, r) == RunTest(env, c', pend, pc, |c|, r);
      assert pc + 2 < |c|;
      if !Taken(env, i, r) {
        NilRun(env, c, c', pend, pc + 2, r, base);
      } else if pc + 1 !in pend {
        var t, r' := pc + 2 + c[pc + 1].sbx, if i.TestSet? then Set(r, i.a, Get(r, i.b)) else r;
        assert RunTest(env, c, pend, pc, |c|, r) == Goto(env, c, pend, pc, t, |c|, r');
        assert RunTest(env, c', pend, pc, |c|, r) == Goto(env, c', pend, pc, t, |c|, r');
        NilRun(env, c, c', pend, t, r', base);
      }
    } else if i.Jmp? {
      if pc !in pend {
        NilRun(env, c, c', pend, pc + 1 + i.sbx, r, base);
      }
    } else if i.LoadBool? && i.skip {
      NilRun(env, c, c', pend, pc + 2, Set(r, i.a, Bool(i.v)), base);
    } else {
      var r' := if i.LoadNil? then SetNils(r, i.a, i.b)
          else if i.LoadBool? then Set(r, i.a, Bool(i.v)) else Set(r, i.a, Loaded(env, i, r));
      NilRun(env, c, c', pend, pc + 1, r', base);
    }
  }

  /** The last instruction can take over setting register base to nil. */
  ghost predicate CanStretch(x: Ctx, s: Gen) {
    && s.last < |s.c| && s.c != [] && s.c[|s.c| - 1].LoadNil?
    && s.c[|s.c| - 1].a <= x.base <= s.c[|s.c| - 1].b + 1
  }

  ghost function StretchedState(x: Ctx, s: Gen, max': int): Gen
    requires CanStretch(x, s)
  {
    s.(c := s.c[|s.c| - 1 := Stretched(s.c[|s.c| - 1], x.base)], freereg := x.base + 1, max := max')
  }

  lemma StretchJudge(x: Ctx, s: Gen, e: Exp, max': int)
    requires Wf(x, s, e) && Judge(x, s, e) && CanStretch(x, s) && e.k == VNil && s.max <= max' && x.base < max'
    ensures Judge(x, StretchedState(x, s, max'), e.(k := VNonReloc(x.base)))
  {
    hide ListsOk, Targets, Pend, NoneToEnd, KindSem;
    var s', e' := StretchedState(x, s, max'), e.(k := VNonReloc(x.base));
    StretchPend(x, s, e, s', e');
    forall env: Env, r: Regs | Fits(env, x, s', r) ensures JudgeAt(env, x, s', e', r) {
      assert Fits(env, x, s, r) && JudgeAt(env, x, s, e, r);
      if x.q(env, r) != DontCare {
        NilRun(env, s.c, s'.c, Pend(x, s, e), x.org, r, x.base);
        if x.q(env, r).Wants? {
          StretchFlow(env, x, s, e, s', e', x.q(env, r).v, x.q(env, r).r, Out(env, x, s, e, r), Out(env, x, s', e', r));
        }
      }
    }
  }

  lemma StretchPend(x: Ctx, s: Gen, e: Exp, s': Gen, e': Exp)
    requires ListsOk(x, s, e) && Targets(x, s, e) && CanStretch(x, s) && s' == StretchedState(x, s, s'.max)
      && e' == e.(k := e'.k)
    ensures Pend(x, s', e') == Pend(x, s, e) && NoneToEnd(s.c, Pend(x, s, e), x.org) && s.jps == []
    ensures forall n :: n in e.ts || n in e.fs ==>
      0 <= n < |s.c| && HasTestSet(s'.c, n) == HasTestSet(s.c, n) && (HasTestSet(s.c, n) ==> s'.c[n - 1] == s.c[n - 1])
  {
    PendJumps(x, s, e);
    assert forall n :: n in e.ts || n in e.fs ==> n in Pend(x, s, e);
  }

  lemma StretchFlow(env: Env, x: Ctx, s: Gen, e: Exp, s': Gen, e': Exp, v: Value, r1: Regs, o: Outcome, o': Outcome)
    requires ExpFlow(env, x, s, e, v, r1, o) && StretchedRun(o, o', x.base) && e.k == VNil
      && e' == e.(k := VNonReloc(x.base)) && s.jps == s'.jps == [] && 0 <= x.base < |r1|
    requires forall n :: n in e.ts || n in e.fs ==>
      HasTestSet(s'.c, n) == HasTestSet(s.c, n) && (HasTestSet(s.c, n) ==> s'.c[n - 1] == s.c[n - 1])
    ensures ExpFlow(env, x, s', e', v, r1, o')
  {
  }

  lemma StretchWf(x: Ctx, s: Gen, e: Exp, max': int)
    requires Wf(x, s, e) && CanStretch(x, s) && e.k == VNil && s.max <= max' && x.base < max'
    ensures Wf(x, StretchedState(x, s, max'), e.(k := VNonReloc(x.base)))
      && Frame(s.c, StretchedState(x, s, max').c, Own(x, e))
  {
    var s', e' := StretchedState(x, s, max'), e.(k := VNonReloc(x.base));
    PendJumps(x, s, e);
    assert s.jps == [];
    assert Frame(s.c, s'.c, Own(x, e));
    FrameLists(x, s, e, s', e');
    assert Targets(x, s', e') by {
      assert Pend(x, s', e') == Pend(x, s, e);
      hide ListsOk, CodeOk;
    }
    hide ListsOk, Targets, Pend, Frame;
  }

  /** At the start of a function every register above the locals is nil. */
  lemma CleanJudge(x: Ctx, s: Gen, e: Exp, max': int)
    requires Wf(x, s, e) && Judge(x, s, e) && s.c == [] && e.k == VNil && s.max <= max' && x.base < max'
    ensures Judge(x, s.(freereg := x.base + 1, max := max'), e.(k := VNonReloc(x.base)))
    ensures Wf(x, s.(freereg := x.base + 1, max := max'), e.(k := VNonReloc(x.base)))
  {
    var s', e' := s.(freereg := x.base + 1, max := max'), e.(k := VNonReloc(x.base));
    assert Pend(x, s', e') == Pend(x, s, e);
    forall env: Env, r: Regs | Fits(env, x, s', r) ensures JudgeAt(env, x, s', e', r) {
      assert Fits(env, x, s, r) && JudgeAt(env, x, s, e, r);
    }
  }
}
