/** Each elementary operation of the code generator keeps the meaning of the expression. */
module CodeOps {
  import opened CodeVm
  import opened CodeLists
  import opened CodeFlow
  import opened CodeSem
  import opened CodeEmit

  ghost function Own(x: Ctx, e: Exp): set<int> { x.outer + Elems(e.ts) + Elems(e.fs) }

  lemma FrameLanded(x: Ctx, s: Gen, e: Exp, more: seq<Instr>)
    requires CodeOk(x, s) && ListsOk(x, s, e)
    ensures Frame(s.c, Landed(s) + more, Own(x, e))
  {
    var c2 := Landed(s) + more;
    forall n | n in Own(x, e) && 0 <= n < |s.c|
      ensures n < |c2| && c2[n] == s.c[n] && (n > 0 ==>
        IsTest(c2[n - 1]) == IsTest(s.c[n - 1]) && (IsTest(s.c[n - 1]) ==> c2[n - 1] == s.c[n - 1]))
    {
      PendJumps(x, s, e);
      assert c2[n] == PatchedAt(s.c, s.jps, |s.c|, NO_REG, |s.c|, n);
      if n > 0 {
        assert c2[n - 1] == PatchedAt(s.c, s.jps, |s.c|, NO_REG, |s.c|, n - 1);
      }
    }
  }

  /** Jumps of the lists keep their tests, so what they carry. */
  lemma FrameJumpVal(c: seq<Instr>, c': seq<Instr>, kept: set<int>, n: int, r: Regs, v: Value, b: bool)
    requires Frame(c, c', kept) && n in kept && 0 <= n < |c| && JumpVal(c, n, r, v, b)
    ensures JumpVal(c', n, r, v, b)
  {
  }

  lemma FrameLists(x: Ctx, s: Gen, e: Exp, s': Gen, e': Exp)
    requires ListsOk(x, s, e) && Frame(s.c, s'.c, Own(x, e)) && e' == e.(k := e'.k) && s'.jps == [] && s'.jpc == NO_JUMP
    ensures ListsOk(x, s', e')
  {
    ListJumps(s.c, e.t, e.ts);
    ListJumps(s.c, e.f, e.fs);
    ListFrame(s.c, s'.c, e.t, e.ts);
    ListFrame(s.c, s'.c, e.f, e.fs);
  }

  /** Adding code that jumps nowhere keeps targets inside the code. */
  lemma TargetsLanded(x: Ctx, s: Gen, e: Exp, more: seq<Instr>, s': Gen, e': Exp)
    requires CodeOk(x, s) && ListsOk(x, s, e) && Targets(x, s, e) && more != []
    requires s'.c == Landed(s) + more && s'.jps == [] && s'.last == s.last && e'.ts == e.ts && e'.fs == e.fs
    requires forall j :: 0 <= j < |more| ==>
      (more[j].Jmp? ==> more[j] == Jmp(NO_JUMP)) && !(more[j].LoadBool? && more[j].skip)
    ensures Targets(x, s', e')
  {
    PendJumps(x, s, e);
    hide ListsOk, CodeOk;
    assert forall i :: 0 <= i < |s.c| ==> s'.c[i] == PatchedAt(s.c, s.jps, |s.c|, NO_REG, |s.c|, i);
    assert forall i :: |s.c| <= i < |s'.c| ==> s'.c[i] == more[i - |s.c|];
    forall i | 0 <= i < |s'.c| && x.org <= i && s'.c[i].Jmp? && i !in Pend(x, s', e')
        ensures i + 1 + s'.c[i].sbx < |s'.c| {
      if i < |s.c| {
        if i !in s.jps {
          assert s'.c[i] == s.c[i];
          assert i !in Pend(x, s, e);
        }
      }
    }
    forall i | 0 <= i < |s'.c| && x.org <= i && s'.c[i].LoadBool? && s'.c[i].skip ensures i + 2 < |s'.c| {
    }
  }

  // -------------------------------------------------- loading into a register

  /** The state after an instruction that puts the value in register base. */
  ghost function LoadedState(x: Ctx, s: Gen, i: Instr, k': seq<Value>, max': int): Gen {
    Gen(Landed(s) + [i], NO_JUMP, [], k', x.base + 1, s.nact, max', s.last)
  }

  ghost predicate Loads(x: Ctx, s: Gen, e: Exp, i: Instr, k': seq<Value>) {
    && Plain(i) && i.a == x.base && (i.LoadNil? ==> i.b == x.base) && s.k <= k'
    && forall env: Env, r: Regs, v: Value :: k' <= env.k && |r| > x.base && KindSem(env, e.k, r, v) ==>
      Get(Do(env, i, r), x.base) == v
  }

  lemma LoadJudge(x: Ctx, s: Gen, e: Exp, i: Instr, k': seq<Value>, max': int)
    requires Wf(x, s, e) && Judge(x, s, e) && Loads(x, s, e, i, k') && s.max <= max' && x.base < max'
    ensures Judge(x, LoadedState(x, s, i, k', max'), e.(k := VNonReloc(x.base)))
  {
    var s', e' := LoadedState(x, s, i, k', max'), e.(k := VNonReloc(x.base));
    FrameLanded(x, s, e, [i]);
    PendJumps(x, s, e);
    assert |Landed(s)| == |s.c|;
    forall env: Env, r: Regs | Fits(env, x, s', r) ensures JudgeAt(env, x, s', e', r) {
      assert Fits(env, x, s, r) && JudgeAt(env, x, s, e, r);
      LoadAt(env, x, s, e, i, s', e', r);
    }
  }

  lemma LoadAt(env: Env, x: Ctx, s: Gen, e: Exp, i: Instr, s': Gen, e': Exp, r: Regs)
    requires CodeOk(x, s) && ListsOk(x, s, e) && Loads(x, s, e, i, s'.k) && s'.k <= env.k && |r| > x.base >= 0
    requires |Landed(s)| == |s.c| && s'.c == Landed(s) + [i] && s'.jps == [] && e' == e.(k := VNonReloc(x.base))
    requires JudgeAt(env, x, s, e, r) && Frame(s.c, s'.c, Own(x, e))
    requires forall n :: n in Pend(x, s, e) ==> 0 <= n < |s.c|
    ensures JudgeAt(env, x, s', e', r)
  {
    if x.q(env, r) != DontCare {
      var o := Out(env, x, s, e, r);
      hide ListsOk, CodeOk, Frame, Landed, Loads, Own;
      LandedOnly(x, s, e, s', e');
      IsPlain(x, s, e, i, s'.k);
      EmitRun(env, x, s, e, i, Pend(x, s', e'), r);
      if x.q(env, r).Wants? {
        LoadFlow(env, x, s, e, i, s', e', x.q(env, r).v, x.q(env, r).r, o, Out(env, x, s', e', r));
      }
    }
  }

  lemma IsPlain(x: Ctx, s: Gen, e: Exp, i: Instr, k': seq<Value>)
    requires Loads(x, s, e, i, k')
    ensures Plain(i)
  {
  }

  lemma LoadFlow(env: Env, x: Ctx, s: Gen, e: Exp, i: Instr, s': Gen, e': Exp, v: Value, r1: Regs, o: Outcome,
      o': Outcome)
    requires Loads(x, s, e, i, s'.k) && s'.k <= env.k && |r1| > x.base >= 0 && s'.jps == []
      && e' == e.(k := VNonReloc(x.base))
    requires Frame(s.c, s'.c, Own(x, e)) && ExpFlow(env, x, s, e, v, r1, o) && forall n :: n in Pend(x, s, e) ==>
      0 <= n < |s.c|
    requires o' == if Arrives(s, o) then Fall(Do(env, i, o.r)) else o
    ensures ExpFlow(env, x, s', e', v, r1, o')
  {
    if Arrives(s, o) {
      assert KindSem(env, e.k, o.r, v);
    } else {
      assert o.n in Pend(x, s, e);
      FrameJumpVal(s.c, s'.c, Own(x, e), o.n, o.r, v, o.n in e.ts);
    }
  }

  lemma LandedOnly(x: Ctx, s: Gen, e: Exp, s': Gen, e': Exp)
    requires ListsOk(x, s, e) && s'.jps == [] && e' == e.(k := e'.k)
    ensures forall n :: n in Pend(x, s', e') <==> n in Pend(x, s, e) && n !in s.jps
  {
  }

  lemma LoadWf(x: Ctx, s: Gen, e: Exp, i: Instr, k': seq<Value>, max': int)
    requires Wf(x, s, e) && Plain(i) && s.k <= k' && s.max <= max' && x.base < max'
    ensures Wf(x, LoadedState(x, s, i, k', max'), e.(k := VNonReloc(x.base)))
    ensures Frame(s.c, LoadedState(x, s, i, k', max').c, Own(x, e))
  {
    hide ListsOk, Targets, Frame, Landed;
    var s', e' := LoadedState(x, s, i, k', max'), e.(k := VNonReloc(x.base));
    FrameLanded(x, s, e, [i]);
    FrameLists(x, s, e, s', e');
    TargetsLanded(x, s, e, [i], s', e');
    StartLanded(x, s, e, [i]);
  }

  lemma StartLanded(x: Ctx, s: Gen, e: Exp, more: seq<Instr>)
    requires CodeOk(x, s) && ListsOk(x, s, e)
    ensures |Landed(s)| == |s.c| && Start(Landed(s) + more, x.org) && Start(Landed(s) + more, |s.c|)
  {
    PendJumps(x, s, e);
    var c2 := Landed(s) + more;
    if x.org > 0 {
      assert c2[x.org - 1] == PatchedAt(s.c, s.jps, |s.c|, NO_REG, |s.c|, x.org - 1);
    }
    if s.c != [] {
      assert c2[|s.c| - 1] == PatchedAt(s.c, s.jps, |s.c|, NO_REG, |s.c|, |s.c| - 1);
    }
  }

  // --------------------------------------------------------- tests and jumps

  /** Test i decides, for a value of kind k, whether its truth is cond; if not it is of kind k'. */
  ghost predicate Decides(s: Gen, k: Kind, i: Instr, cond: bool, k': Kind) {
    && IsTest(i)
    && forall env: Env, r: Regs, v: Value :: s.k <= env.k && |r| >= s.max && KindSem(env, k, r, v) ==>
         && (Taken(env, i, r) <==> Truthy(v) == cond)
         && if Truthy(v) != cond then KindSem(env, k', r, v)
           else if i.TestSet? then v == Get(r, i.b) else v == Bool(cond)
  }

  /** After a test and a jump: who takes the jump joins the list for cond. */
  ghost function Branched(e: Exp, node: int, cond: bool, k': Kind): Exp {
    if cond then e.(k := k', ts := e.ts + [node]) else e.(k := k', fs := e.fs + [node])
  }

  ghost function TestedState(x: Ctx, s: Gen, i: Instr): Gen {
    s.(c := Landed(s) + [i, Jmp(NO_JUMP)], jpc := NO_JUMP, jps := [], freereg := x.base)
  }

  lemma TestJudge(x: Ctx, s: Gen, e: Exp, i: Instr, cond: bool, k': Kind)
    requires Wf(x, s, e) && Judge(x, s, e) && Decides(s, e.k, i, cond, k')
    ensures Judge(x, TestedState(x, s, i), Branched(e, |s.c| + 1, cond, k'))
  {
    var s', e' := TestedState(x, s, i), Branched(e, |s.c| + 1, cond, k');
    FrameLanded(x, s, e, [i, Jmp(NO_JUMP)]);
    PendJumps(x, s, e);
    assert |Landed(s)| == |s.c|;
    forall env: Env, r: Regs | Fits(env, x, s', r) ensures JudgeAt(env, x, s', e', r) {
      assert Fits(env, x, s, r) && JudgeAt(env, x, s, e, r);
      TestAt(env, x, s, e, i, cond, k', s', e', r);
    }
  }

  lemma TestAt(env: Env, x: Ctx, s: Gen, e: Exp, i: Instr, cond: bool, k': Kind, s': Gen, e': Exp, r: Regs)
    requires CodeOk(x, s) && ListsOk(x, s, e) && Decides(s, e.k, i, cond, k') && s.k <= env.k && |r| >= s.max
    requires |Landed(s)| == |s.c| && s' == TestedState(x, s, i) && e' == Branched(e, |s.c| + 1, cond, k')
    requires JudgeAt(env, x, s, e, r) && Frame(s.c, s'.c, Own(x, e))
    requires forall n :: n in Pend(x, s, e) ==> 0 <= n < |s.c|
    ensures JudgeAt(env, x, s', e', r)
  {
    hide ExpFlow, Run, Landed, Frame;
    if x.q(env, r) != DontCare {
      var o := Out(env, x, s, e, r);
      NeverStuck(env, x, s, e, r);
      CondRun(env, x, s, e, i, Pend(x, s', e'), r);
      hide ListsOk, CodeOk, Decides;
      if x.q(env, r).Wants? {
        TestFlow(env, x, s, e, i, cond, k', s', e', x.q(env, r).v, x.q(env, r).r, o, Out(env, x, s', e', r));
      }
    }
  }

  lemma TestFlow(env: Env, x: Ctx, s: Gen, e: Exp, i: Instr, cond: bool, k': Kind, s': Gen, e': Exp, v: Value,
      r1: Regs, o: Outcome, o': Outcome)
    requires Decides(s, e.k, i, cond, k') && s.k <= env.k && |r1| >= s.max
    requires |Landed(s)| == |s.c| && s' == TestedState(x, s, i) && e' == Branched(e, |s.c| + 1, cond, k')
      && Frame(s.c, s'.c, Own(x, e))
    requires forall n :: n in Pend(x, s, e) ==> 0 <= n < |s.c|
    requires ExpFlow(env, x, s, e, v, r1, o)
    requires o' == if Arrives(s, o) then (if Taken(env, i, o.r) then Exit(|s.c| + 1, o.r) else Fall(o.r)) else o
    ensures ExpFlow(env, x, s', e', v, r1, o')
  {
    if Arrives(s, o) {
      assert KindSem(env, e.k, o.r, v);
      assert s'.c[|s.c|] == i && |s.c| + 1 !in Pend(x, s, e);
    } else {
      assert o.n in Pend(x, s, e);
      FrameJumpVal(s.c, s'.c, Own(x, e), o.n, o.r, v, o.n in e.ts);
    }
  }

  /** Everything but the list that the new jump has still to join is in order. */
  lemma TestWf(x: Ctx, s: Gen, e: Exp, i: Instr)
    requires Wf(x, s, e) && IsTest(i)
    ensures var s', node := TestedState(x, s, i), |s.c| + 1;
      && CodeOk(x, s') && ListsOk(x, s', e) && Frame(s.c, s'.c, Own(x, e)) && Targets(x, s', e)
      && |s'.c| == node + 1 && s'.c[node] == Jmp(NO_JUMP) && x.org <= node && node !in Own(x, e)
  {
    hide ListsOk, Targets, Frame, Landed, Own;
    var s' := TestedState(x, s, i);
    FrameLanded(x, s, e, [i, Jmp(NO_JUMP)]);
    FrameLists(x, s, e, s', e);
    TargetsLanded(x, s, e, [i, Jmp(NO_JUMP)], s', e);
    StartLanded(x, s, e, [i, Jmp(NO_JUMP)]);
    OwnBelow(x, s, e);
  }

  lemma OwnBelow(x: Ctx, s: Gen, e: Exp)
    requires ListsOk(x, s, e)
    ensures forall n :: n in Own(x, e) ==> n < |s.c|
  {
    PendJumps(x, s, e);
    hide ListsOk;
    assert Own(x, e) <= Pend(x, s, e);
  }

  // ---------------------------------------------------- changes that do not show

  /** Only open jumps have changed, in their offsets. */
  ghost predicate Rethreaded(c: seq<Instr>, c': seq<Instr>, nodes: set<int>) {
    |c'| == |c| && forall i :: 0 <= i < |c| ==> c'[i] == c[i] || (i in nodes && c[i].Jmp? && c'[i].Jmp?)
  }

  ghost predicate SameExp(e: Exp, e': Exp) { e'.k == e.k && e'.ts == e.ts && e'.fs == e.fs }

  lemma RethreadJudge(x: Ctx, s: Gen, e: Exp, s': Gen, e': Exp)
    requires Judge(x, s, e) && CodeOk(x, s) && s' == s.(c := s'.c, jpc := s'.jpc, last := s'.last) && SameExp(e, e')
    requires forall n :: n in Pend(x, s, e) ==> 0 <= n < |s.c| && s.c[n].Jmp?
    requires Rethreaded(s.c, s'.c, Pend(x, s, e))
    ensures Judge(x, s', e')
  {
    assert Start(s'.c, x.org) && Pend(x, s', e') == Pend(x, s, e);
    forall env: Env, r: Regs | Fits(env, x, s', r) ensures JudgeAt(env, x, s', e', r) {
      assert Fits(env, x, s, r) && JudgeAt(env, x, s, e, r);
      if x.q(env, r) != DontCare {
        SameRun(env, s.c, s'.c, Pend(x, s, e), x.org, |s.c|, r);
        assert forall n :: HasTestSet(s'.c, n) == HasTestSet(s.c, n);
      }
    }
  }

  /** A weaker account of where the value is. */
  lemma JudgeWeaken(x: Ctx, s: Gen, e: Exp, k: Kind)
    requires Judge(x, s, e) && forall env: Env, r: Regs, v: Value :: s.k <= env.k && KindSem(env, e.k, r, v) ==>
      KindSem(env, k, r, v)
    ensures Judge(x, s, e.(k := k))
  {
    var e' := e.(k := k);
    forall env: Env, r: Regs | Fits(env, x, s, r) ensures JudgeAt(env, x, s, e', r) {
      assert JudgeAt(env, x, s, e, r) && Pend(x, s, e') == Pend(x, s, e);
    }
  }

  /** Only the values wanted matter. */
  lemma JudgeCong(x: Ctx, x': Ctx, s: Gen, e: Exp)
    requires Judge(x, s, e) && x' == x.(q := x'.q) && forall env: Env, r: Regs :: Fits(env, x, s, r) ==>
      x'.q(env, r) == x.q(env, r)
    ensures Judge(x', s, e)
  {
    forall env: Env, r: Regs | Fits(env, x', s, r) ensures JudgeAt(env, x', s, e, r) {
      assert Fits(env, x, s, r) && JudgeAt(env, x, s, e, r);
    }
  }

  /** luaK_patchtohere on the jumps of one list: they are now on their way to the end of the code. */
  lemma HereJudge(x: Ctx, s: Gen, e: Exp, s': Gen, e': Exp, b: bool)
    requires Judge(x, s, e) && e.k == VCond(b) && s'.c == s.c && s' == s.(jpc := s'.jpc, jps := s'.jps, last := s'.last)
    requires if b then e' == e.(t := e'.t, ts := []) && Elems(s'.jps) == Elems(s.jps) + Elems(e.ts)
      && Disjoint(e.ts, e.fs)
             else e' == e.(f := e'.f, fs := []) && Elems(s'.jps) == Elems(s.jps) + Elems(e.fs) && Disjoint(e.ts, e.fs)
    ensures Judge(x, s', e')
  {
    assert Pend(x, s', e') == Pend(x, s, e);
    assert forall n :: n in s'.jps <==> n in Elems(s'.jps);
    forall env: Env, r: Regs | Fits(env, x, s', r) ensures JudgeAt(env, x, s', e', r) {
      assert Fits(env, x, s, r) && JudgeAt(env, x, s, e, r);
    }
  }

  /** The jumps waiting for the next instruction are made to lead to the end of the code. */
  ghost function LandedState(s: Gen): Gen { s.(c := Landed(s), jpc := NO_JUMP, jps := []) }

  lemma LandJudge(x: Ctx, s: Gen, e: Exp)
    requires Wf(x, s, e) && Judge(x, s, e)
    ensures Judge(x, LandedState(s), e) && Frame(s.c, Landed(s), Own(x, e))
  {
    var s' := LandedState(s);
    assert Landed(s) + [] == Landed(s);
    FrameLanded(x, s, e, []);
    PendJumps(x, s, e);
    LandedLinks(x, s, e, [], Pend(x, s', e)) by { LandedPend(x, s, e); }
    forall env: Env, r: Regs | Fits(env, x, s', r) ensures JudgeAt(env, x, s', e, r) {
      assert Fits(env, x, s, r) && JudgeAt(env, x, s, e, r);
      if x.q(env, r) != DontCare {
        var o := Out(env, x, s, e, r);
        LinkFlow(env, s.c, s'.c, x.org, |s.c|, |s.c|, Pend(x, s, e), Pend(x, s', e), LandedAll(s), x.org, r);
        assert Out(env, x, s', e, r) == if Arrives(s, o) then Fall(o.r) else o;
        if x.q(env, r).Wants? && !Arrives(s, o) {
          FrameJumpVal(s.c, s'.c, Own(x, e), o.n, o.r, x.q(env, r).v, o.n in e.ts);
        }
      }
    }
  }

  lemma LandedPend(x: Ctx, s: Gen, e: Exp)
    requires ListsOk(x, s, e)
    ensures forall n :: n in Pend(x, LandedState(s), e) <==> n in Pend(x, s, e) && n !in s.jps
  {
  }

  /** A jump may land at the end of the code now, so that is a label unless it was one. */
  lemma LandWf(x: Ctx, s: Gen, e: Exp)
    requires Wf(x, s, e)
    ensures CodeOk(x, LandedState(s)) && ListsOk(x, LandedState(s), e) && Targets(x, LandedState(s), e)
  {
    hide ListsOk, Targets, CodeOk, Landed;
    LandLists(x, s, e);
    LandCode(x, s, e);
    LandTargets(x, s, e);
  }

  lemma LandLists(x: Ctx, s: Gen, e: Exp)
    requires CodeOk(x, s) && ListsOk(x, s, e)
    ensures ListsOk(x, LandedState(s), e)
  {
    assert Landed(s) + [] == Landed(s);
    FrameLanded(x, s, e, []);
    FrameLists(x, s, e, LandedState(s), e);
  }

  lemma LandCode(x: Ctx, s: Gen, e: Exp)
    requires CodeOk(x, s) && ListsOk(x, s, e)
    ensures CodeOk(x, LandedState(s))
  {
    var s' := LandedState(s);
    assert Landed(s) + [] == Landed(s);
    StartLanded(x, s, e, []);
    PendJumps(x, s, e);
    hide ListsOk, Pend;
    if s.c != [] {
      assert s'.c[|s.c| - 1] == PatchedAt(s.c, s.jps, |s.c|, NO_REG, |s.c|, |s.c| - 1);
    }
  }

  lemma LandTargets(x: Ctx, s: Gen, e: Exp)
    requires CodeOk(x, s) && ListsOk(x, s, e) && Targets(x, s, e)
    ensures Targets(x, LandedState(s), e)
  {
    var s' := LandedState(s);
    LandedPend(x, s, e);
    assert forall i :: 0 <= i < |s.c| ==> s'.c[i] == PatchedAt(s.c, s.jps, |s.c|, NO_REG, |s.c|, i);
    hide ListsOk, Pend, CodeOk, Landed;
    forall i | 0 <= i < |s'.c| && x.org <= i && s'.c[i].Jmp? && i !in Pend(x, s', e)
      ensures i + 1 + s'.c[i].sbx < |s'.c| || (i + 1 + s'.c[i].sbx == |s'.c| && s'.last == |s'.c|)
    {
      assert i !in s.jps ==> s'.c[i] == s.c[i];
      assert i in s.jps ==> s.jps != [];
    }
  }

  // -------------------------------------------------------------------- not

  function Negated(w: Want): Want { if w.Wants? then Wants(Bool(!Truthy(w.v)), w.r) else w }

  ghost function NotCtx(x: Ctx): Ctx { x.(q := (env: Env, r: Regs) => Negated(x.q(env, r))) }

  /** removevalues on a list: its tests no longer carry a value. */
  function Unset(c: seq<Instr>, s: seq<int>): seq<Instr> {
    seq(|c|, i requires 0 <= i < |c| => if i + 1 in s && c[i].TestSet? then Test(c[i].b, c[i].c) else c[i])
  }

  ghost function Swapped(e: Exp, k: Kind): Exp { Exp(k, e.f, e.t, e.fs, e.ts) }

  lemma NotJudge(x: Ctx, s: Gen, e: Exp, k: Kind)
    requires Judge(x, s, e) && CodeOk(x, s) && ListsOk(x, s, e)
    requires forall env: Env, r: Regs, v: Value :: KindSem(env, e.k, r, v) && s.k <= env.k ==>
      KindSem(env, k, r, Bool(!Truthy(v)))
    ensures Judge(NotCtx(x), s.(c := Unset(s.c, e.ts + e.fs)), Swapped(e, k))
  {
    var x', s', e' := NotCtx(x), s.(c := Unset(s.c, e.ts + e.fs)), Swapped(e, k);
    PendJumps(x, s, e);
    assert Pend(x', s', e') == Pend(x, s, e);
    assert Start(s'.c, x.org);
    hide CodeOk;
    forall env: Env, r: Regs | Fits(env, x', s', r) ensures JudgeAt(env, x', s', e', r) {
      assert Fits(env, x, s, r) && JudgeAt(env, x, s, e, r);
      NotAt(env, x, s, e, k, s', e', r);
    }
  }

  lemma NotAt(env: Env, x: Ctx, s: Gen, e: Exp, k: Kind, s': Gen, e': Exp, r: Regs)
    requires 0 <= x.org <= |s.c| && JudgeAt(env, x, s, e, r) && ListsOk(x, s, e) && s.k <= env.k
    requires s' == s.(c := Unset(s.c, e.ts + e.fs)) && e' == Swapped(e, k) && Start(s.c, x.org) && Start(s'.c, x.org)
    requires Pend(NotCtx(x), s', e') == Pend(x, s, e) && forall n :: n in Pend(x, s, e) ==>
      0 <= n < |s.c| && s.c[n].Jmp?
    requires forall r: Regs, v: Value :: KindSem(env, e.k, r, v) ==> KindSem(env, k, r, Bool(!Truthy(v)))
    ensures JudgeAt(env, NotCtx(x), s', e', r)
  {
    hide ExpFlow, KindSem, Start, Run;
    if x.q(env, r) != DontCare {
      NeverStuck(env, x, s, e, r);
      assert Disjoint(e.ts, e.fs);
      hide ListsOk;
      SameRun(env, s.c, s'.c, Pend(x, s, e), x.org, |s.c|, r);
      if x.q(env, r).Wants? {
        NotFlow(env, x, s, e, k, NotCtx(x), s', e', x.q(env, r).v, x.q(env, r).r, Out(env, x, s, e, r));
      }
    }
  }

  lemma NeverStuck(env: Env, x: Ctx, s: Gen, e: Exp, r: Regs)
    requires 0 <= x.org <= |s.c| && JudgeAt(env, x, s, e, r) && x.q(env, r) != DontCare
    ensures Run(env, s.c, Pend(x, s, e), x.org, |s.c|, r) != Stuck
  {
    hide Run;
  }

  lemma NotFlow(env: Env, x: Ctx, s: Gen, e: Exp, k: Kind, x': Ctx, s': Gen, e': Exp, v: Value, r1: Regs, o: Outcome)
    requires ExpFlow(env, x, s, e, v, r1, o) && x'.base == x.base && s'.c == Unset(s.c, e.ts + e.fs) && s'.jps == s.jps
      && e' == Swapped(e, k)
    requires Disjoint(e.ts, e.fs) && s.k <= env.k
    requires forall r: Regs :: KindSem(env, e.k, r, v) ==> KindSem(env, k, r, Bool(!Truthy(v)))
    ensures ExpFlow(env, x', s', e', Bool(!Truthy(v)), r1, o)
  {
    if o.Exit? && o.n !in s.jps {
      assert !HasTestSet(s'.c, o.n);
    }
  }

  lemma NotOk(x: Ctx, s: Gen, e: Exp, k: Kind)
    requires CodeOk(x, s) && ListsOk(x, s, e) && Targets(x, s, e) && Judge(x, s, e)
    requires KindOk(x, s, Swapped(e, k)) && RegsOk(x, s, Swapped(e, k))
    requires forall env: Env, r: Regs, v: Value :: KindSem(env, e.k, r, v) && s.k <= env.k ==>
      KindSem(env, k, r, Bool(!Truthy(v)))
    ensures var s', e' := s.(c := Unset(s.c, e.ts + e.fs)), Swapped(e, k);
      Wf(NotCtx(x), s', e') && Judge(NotCtx(x), s', e') && Frame(s.c, s'.c, x.outer)
  {
    hide Judge, ListsOk, Targets, Frame, KindSem, CodeOk;
    NotJudge(x, s, e, k);
    NotLists(x, s, e, k);
    NotFrame(x, s, e);
    NotTargets(x, s, e, k);
    NotCode(x, s, e);
  }

  lemma NotCode(x: Ctx, s: Gen, e: Exp)
    requires CodeOk(x, s)
    ensures CodeOk(NotCtx(x), s.(c := Unset(s.c, e.ts + e.fs)))
  {
  }

  lemma NotLists(x: Ctx, s: Gen, e: Exp, k: Kind)
    requires ListsOk(x, s, e)
    ensures ListsOk(NotCtx(x), s.(c := Unset(s.c, e.ts + e.fs)), Swapped(e, k))
  {
    var c' := Unset(s.c, e.ts + e.fs);
    PendJumps(x, s, e);
    assert forall n :: n in Pend(x, s, e) ==> c'[n] == s.c[n];
    UnsetList(s.c, c', s.jpc, s.jps);
    UnsetList(s.c, c', e.t, e.ts);
    UnsetList(s.c, c', e.f, e.fs);
    hide Unset, ListOk;
  }

  lemma UnsetList(c: seq<Instr>, c': seq<Instr>, l: int, s: seq<int>)
    requires ListOk(c, l, s) && |c'| == |c| && forall n :: n in s ==> 0 <= n < |c| && c'[n] == c[n]
    ensures ListOk(c', l, s)
  {
    ListFrame(c, c', l, s);
  }

  lemma NotFrame(x: Ctx, s: Gen, e: Exp)
    requires ListsOk(x, s, e)
    ensures Frame(s.c, Unset(s.c, e.ts + e.fs), x.outer)
  {
    PendJumps(x, s, e);
    var c' := Unset(s.c, e.ts + e.fs);
    forall n | n in x.outer && 0 <= n < |s.c|
      ensures c'[n] == s.c[n] && (n > 0 ==> c'[n - 1] == s.c[n - 1])
    {
      assert n in Pend(x, s, e) && n !in e.ts + e.fs;
    }
  }

  lemma NotTargets(x: Ctx, s: Gen, e: Exp, k: Kind)
    requires Targets(x, s, e)
    ensures Targets(NotCtx(x), s.(c := Unset(s.c, e.ts + e.fs)), Swapped(e, k))
  {
    var s', e' := s.(c := Unset(s.c, e.ts + e.fs)), Swapped(e, k);
    assert Pend(NotCtx(x), s', e') == Pend(x, s, e);
    hide Pend;
    assert forall i :: 0 <= i < |s.c| ==> s'.c[i] == s.c[i] || (s.c[i].TestSet? && s'.c[i].Test?);
  }
}
