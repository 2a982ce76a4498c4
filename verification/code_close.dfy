/** exp2reg: the value of an expression with jumps is brought together in one register. */
module CodeClose {
  import opened CodeVm
  import opened CodeLists
  import opened CodeFlow
  import opened CodeSem
  import opened CodeEmit
  import opened CodeOps

  /** Where the jumps of the two lists are sent: final for those that carry their value. */
  datatype Goals = Goals(reg: int, final: int, pf: int, pt: int)

  function GoalOf(c: seq<Instr>, fs: seq<int>, g: Goals, n: int): int {
    Target(c, n, g.final, if n in fs then g.pf else g.pt)
  }

  function ClosedAt(c: seq<Instr>, ts: seq<int>, fs: seq<int>, g: Goals, i: int): Instr
    requires 0 <= i < |c|
  {
    if i in ts || i in fs then Jmp(GoalOf(c, fs, g, i) - (i + 1))
    else if (i + 1 in ts || i + 1 in fs) && c[i].TestSet? then Retest(c[i], g.reg)
    else c[i]
  }

  function Closed(c: seq<Instr>, ts: seq<int>, fs: seq<int>, g: Goals): seq<Instr> {
    seq(|c|, i requires 0 <= i < |c| => ClosedAt(c, ts, fs, g, i))
  }

  /** The two calls of patchlistaux. */
  lemma ClosedIsPatched(c: seq<Instr>, tail: seq<Instr>, ts: seq<int>, fs: seq<int>, g: Goals)
    requires AreJumps(c, ts) && AreJumps(c, fs) && Disjoint(ts, fs) && (c == [] || !IsTest(c[|c| - 1]))
    ensures Patched(Patched(c + tail, fs, g.final, g.reg, g.pf), ts, g.final, g.reg, g.pt) ==
      Closed(c, ts, fs, g) + tail
  {
    var c0 := c + tail;
    var c1 := Patched(c0, fs, g.final, g.reg, g.pf);
    assert forall i :: 0 <= i < |c1| ==> c1[i] == PatchedAt(c0, fs, g.final, g.reg, g.pf, i);
    forall n | n in ts ensures HasTestSet(c1, n) == HasTestSet(c, n) {
      if n > 0 { assert c1[n - 1] == PatchedAt(c0, fs, g.final, g.reg, g.pf, n - 1); }
    }
    forall n | n in fs ensures HasTestSet(c0, n) == HasTestSet(c, n) {
    }
    forall i | 0 <= i < |c0| ensures PatchedAt(c1, ts, g.final, g.reg, g.pt, i) == (Closed(c, ts, fs, g) + tail)[i] {
      assert c1[i] == PatchedAt(c0, fs, g.final, g.reg, g.pf, i);
    }
  }

  ghost function Goal(x: Ctx, s: Gen, e: Exp, g: Goals): map<int, int> {
    map n | n in Elems(e.ts) + Elems(e.fs) :: GoalOf(s.c, e.fs, g, n)
  }

  ghost predicate GoalsOk(s: Gen, e: Exp, g: Goals, c2: seq<Instr>) {
    forall n :: n in e.ts || n in e.fs ==>
      && |s.c| <= GoalOf(s.c, e.fs, g, n) <= |c2|
      && (GoalOf(s.c, e.fs, g, n) > |s.c| ==> !IsTest(c2[GoalOf(s.c, e.fs, g, n) - 1]))
  }

  lemma CloseLinks(x: Ctx, s: Gen, e: Exp, g: Goals, tail: seq<Instr>, c2: seq<Instr>, pend2: set<int>)
    requires CodeOk(x, s) && ListsOk(x, s, e) && c2 == Closed(s.c, e.ts, e.fs, g) + tail && GoalsOk(s, e, g, c2)
    requires forall n :: 0 <= n < |s.c| ==> (n in pend2 <==> n in x.outer || n in s.jps)
    ensures Links(s.c, c2, x.org, |s.c|, Pend(x, s, e), pend2, Goal(x, s, e, g)) && Start(c2, x.org)
  {
    PendJumps(x, s, e);
    assert (forall n :: n in e.ts || n in e.fs ==> n in Pend(x, s, e) && n !in pend2);
    assert forall n :: n in Pend(x, s, e) <==> n in x.outer || n in s.jps || n in e.ts || n in e.fs;
    hide ListsOk, Pend;
    assert forall i :: 0 <= i < |s.c| ==> c2[i] == ClosedAt(s.c, e.ts, e.fs, g, i);
    if s.c != [] {
      assert c2[|s.c| - 1] == ClosedAt(s.c, e.ts, e.fs, g, |s.c| - 1);
      assert !IsTest(c2[|s.c| - 1]);
    }
    forall i | x.org <= i < |s.c| ensures LinkedAt(s.c, c2, |s.c|, Pend(x, s, e), pend2, Goal(x, s, e, g), i) {
      CloseLinkedAt(s, e, g, c2, Pend(x, s, e), pend2, Goal(x, s, e, g), i);
    }
    if x.org > 0 {
      assert c2[x.org - 1] == ClosedAt(s.c, e.ts, e.fs, g, x.org - 1);
    }
  }

  lemma CloseLinkedAt(s: Gen, e: Exp, g: Goals, c2: seq<Instr>, pend: set<int>, pend2: set<int>, tg: map<int, int>,
      i: int)
    requires 0 <= i < |s.c| <= |c2| && c2[i] == ClosedAt(s.c, e.ts, e.fs, g, i) && GoalsOk(s, e, g, c2)
      && !IsTest(c2[|s.c| - 1])
    requires forall n :: n in tg <==> n in e.ts || n in e.fs
    requires forall n :: n in tg ==> tg[n] == GoalOf(s.c, e.fs, g, n) && n in pend && n !in pend2
    requires forall n :: n in pend ==> 0 <= n < |s.c| && s.c[n].Jmp?
    requires forall n :: 0 <= n < |s.c| && n !in tg ==> (n in pend2 <==> n in pend)
    ensures LinkedAt(s.c, c2, |s.c|, pend, pend2, tg, i)
  {
  }

  // ------------------------------------------------- the code that is added

  /** What exp2reg adds: nothing when every jump carries its value; else instructions that load
      false and true, with a jump around them unless control only gets there with false. */
  ghost predicate Shape(x: Ctx, s: Gen, e: Exp, g: Goals, tail: seq<Instr>, jps': seq<int>) {
    var n := |s.c|;
    var base := x.base;
    var loads := [LoadBool(base, false, true), LoadBool(base, true, false)];
    || (&& tail == [] && jps' == s.jps && g == Goals(base, n, NO_JUMP, NO_JUMP) && e.k == VNonReloc(base)
        && (forall i :: i in e.ts || i in e.fs ==> HasTestSet(s.c, i)))
    || (&& |tail| == 3 && tail[0].Jmp? && tail[1..] == loads && jps' == [n] + s.jps
      && g == Goals(base, n + 3, n + 1, n + 2) && e.k == VNonReloc(base))
    || (tail == loads && jps' == [] && s.jps == [] && g == Goals(base, n + 2, n, n + 1) && e.k == VFalse)
  }

  ghost function ClosedState(x: Ctx, s: Gen, e: Exp, g: Goals, tail: seq<Instr>, jpc': int, jps': seq<int>): Gen {
    s.(c := Closed(s.c, e.ts, e.fs, g) + tail, jpc := jpc', jps := jps', last := |s.c| + |tail|, freereg := x.base + 1)
  }

  const NO_EXP := Exp(VNil, NO_JUMP, NO_JUMP, [], [])

  ghost function InBase(x: Ctx): Exp { NO_EXP.(k := VNonReloc(x.base)) }

  lemma ShapeGoals(x: Ctx, s: Gen, e: Exp, g: Goals, tail: seq<Instr>, c2: seq<Instr>, jps': seq<int>)
    requires Shape(x, s, e, g, tail, jps') && c2 == Closed(s.c, e.ts, e.fs, g) + tail
    ensures GoalsOk(s, e, g, c2)
  {
    assert forall j :: |s.c| <= j < |c2| ==> c2[j] == tail[j - |s.c|];
    if |tail| == 3 {
      assert tail[1] == tail[1..][0] && tail[2] == tail[1..][1];
    }
  }

  /** Running the added code from one of its three entries. */
  lemma TailRun(env: Env, x: Ctx, s: Gen, e: Exp, g: Goals, tail: seq<Instr>, jps': seq<int>, c2: seq<Instr>,
      pend2: set<int>, r: Regs)
    requires Shape(x, s, e, g, tail, jps') && c2 == Closed(s.c, e.ts, e.fs, g) + tail
    requires forall n :: |s.c| <= n ==> (n in pend2 <==> n in jps')
    requires forall n :: n in s.jps ==> n < |s.c|
    ensures |c2| == g.final
    ensures tail != [] ==>
      && |s.c| <= g.pf < |c2|
      && Run(env, c2, pend2, g.pf, |c2|, r) == Fall(Set(r, x.base, Bool(false)))
    ensures tail != [] ==>
      && |s.c| <= g.pt < |c2|
      && Run(env, c2, pend2, g.pt, |c2|, r) == Fall(Set(r, x.base, Bool(true)))
    ensures |s.c| <= |c2| && Run(env, c2, pend2, |s.c|, |c2|, r) ==
      if e.k == VFalse then Fall(Set(r, x.base, Bool(false))) else if tail == [] then Fall(r) else Exit(|s.c|, r)
  {
    assert forall j :: |s.c| <= j < |c2| ==> c2[j] == tail[j - |s.c|];
    if tail != [] {
      if |tail| == 3 {
        assert tail[1] == tail[1..][0] && tail[2] == tail[1..][1];
        assert |s.c| in jps';
      }
      assert c2[g.pf] == LoadBool(x.base, false, true) && c2[g.pt] == LoadBool(x.base, true, false);
      var rt := Set(r, x.base, Bool(true));
      assert Run(env, c2, pend2, g.pt, |c2|, r) == Run(env, c2, pend2, |c2|, |c2|, rt);
      var rf := Set(r, x.base, Bool(false));
      assert Goto(env, c2, pend2, g.pf, g.pf + 2, |c2|, rf) == Run(env, c2, pend2, |c2|, |c2|, rf);
    }
  }

  /** Where a listed jump leads now, its value is in the register. */
  lemma JumpEnds(env: Env, x: Ctx, s: Gen, e: Exp, g: Goals, tail: seq<Instr>, jps': seq<int>, c2: seq<Instr>,
      pend2: set<int>, n: int, r: Regs, v: Value)
    requires Shape(x, s, e, g, tail, jps') && c2 == Closed(s.c, e.ts, e.fs, g) + tail && ListsOk(x, s, e)
    requires forall i :: |s.c| <= i ==> (i in pend2 <==> i in jps')
    requires n in e.ts || n in e.fs
    requires JumpVal(s.c, n, r, v, n !in e.fs) && 0 <= x.base < |r|
    ensures var t := GoalOf(s.c, e.fs, g, n);
      0 <= t <= |c2| && Run(env, c2, pend2, t, |c2|, After(c2, n, r)) == Fall(Set(r, x.base, v))
  {
    PendJumps(x, s, e);
    hide ListsOk;
    TailRun(env, x, s, e, g, tail, jps', c2, pend2, After(c2, n, r));
    assert n in Pend(x, s, e);
    hide Pend;
    if n > 0 {
      assert c2[n - 1] == ClosedAt(s.c, e.ts, e.fs, g, n - 1);
    }
    if HasTestSet(s.c, n) {
      assert After(c2, n, r) == Set(r, x.base, v);
    } else {
      assert tail != [];
      assert After(c2, n, r) == r;
    }
  }

  lemma CloseJudge(x: Ctx, s: Gen, e: Exp, g: Goals, tail: seq<Instr>, jpc': int, jps': seq<int>)
    requires Wf(x, s, e) && Judge(x, s, e) && Shape(x, s, e, g, tail, jps') && x.base < s.max
    ensures Judge(x, ClosedState(x, s, e, g, tail, jpc', jps'), InBase(x))
  {
    var s', e' := ClosedState(x, s, e, g, tail, jpc', jps'), InBase(x);
    var pend2 := Pend(x, s', e');
    PendJumps(x, s, e);
    ShapeGoals(x, s, e, g, tail, s'.c, jps');
    assert (forall n :: 0 <= n < |s.c| ==> (n in pend2 <==> n in x.outer || n in s.jps))
        && (forall n :: |s.c| <= n ==> (n in pend2 <==> n in jps'));
    CloseLinks(x, s, e, g, tail, s'.c, pend2);
    hide Shape, ListsOk, Targets, Links, GoalsOk, Closed;
    forall env: Env, r: Regs | Fits(env, x, s', r) ensures JudgeAt(env, x, s', e', r) {
      assert Fits(env, x, s, r) && JudgeAt(env, x, s, e, r);
      if x.q(env, r) != DontCare {
        CloseAt(env, x, s, e, g, tail, s', r);
      }
    }
  }

  lemma CloseAt(env: Env, x: Ctx, s: Gen, e: Exp, g: Goals, tail: seq<Instr>, s': Gen, r: Regs)
    requires CodeOk(x, s) && ListsOk(x, s, e) && Shape(x, s, e, g, tail, s'.jps) && 0 <= x.base < |r|
    requires s' == ClosedState(x, s, e, g, tail, s'.jpc, s'.jps)
    requires Links(s.c, s'.c, x.org, |s.c|, Pend(x, s, e), Pend(x, s', InBase(x)), Goal(x, s, e, g))
      && Start(s'.c, x.org) && GoalsOk(s, e, g, s'.c)
    requires JudgeAt(env, x, s, e, r) && x.q(env, r) != DontCare
    requires forall n :: |s.c| <= n ==> (n in Pend(x, s', InBase(x)) <==> n in s'.jps)
    requires forall n :: n in s.jps ==> n < |s.c|
    ensures JudgeAt(env, x, s', InBase(x), r)
  {
    var pend2, tg := Pend(x, s', InBase(x)), Goal(x, s, e, g);
    var o := Out(env, x, s, e, r);
    GoalFacts(x, s, e, g, s');
    hide ListsOk, Shape, GoalsOk, Closed, GoalOf, Goal;
    LinkFlow(env, s.c, s'.c, x.org, |s.c|, |s'.c|, Pend(x, s, e), pend2, tg, x.org, r);
    hide Links, Pend;
    if x.q(env, r).Wants? {
      CloseFlow(env, x, s, e, g, tail, s', pend2, tg, x.q(env, r).v, x.q(env, r).r, o, Out(env, x, s', InBase(x), r));
    }
  }

  lemma GoalFacts(x: Ctx, s: Gen, e: Exp, g: Goals, s': Gen)
    requires ListsOk(x, s, e) && GoalsOk(s, e, g, s'.c)
    ensures var tg := Goal(x, s, e, g);
      && (forall n :: n in tg <==> n in e.ts || n in e.fs)
        && (forall n :: n in tg ==> tg[n] == GoalOf(s.c, e.fs, g, n) && |s.c| <= tg[n] <= |s'.c|)
      && (forall n :: n in x.outer || n in s.jps ==> n !in tg)
  {
  }

  lemma CloseFlow(env: Env, x: Ctx, s: Gen, e: Exp, g: Goals, tail: seq<Instr>, s': Gen, pend2: set<int>,
      tg: map<int, int>, v: Value, r1: Regs, o: Outcome, o': Outcome)
    requires ListsOk(x, s, e) && Shape(x, s, e, g, tail, s'.jps) && 0 <= x.base < |r1|
    requires s'.c == Closed(s.c, e.ts, e.fs, g) + tail && ExpFlow(env, x, s, e, v, r1, o)
    requires forall n :: n in tg <==> n in e.ts || n in e.fs
    requires forall n :: n in tg ==> tg[n] == GoalOf(s.c, e.fs, g, n) && |s.c| <= tg[n] <= |s'.c|
    requires forall n :: n in s.jps ==> n !in tg && n < |s.c|
    requires forall n :: |s.c| <= n ==> (n in pend2 <==> n in s'.jps)
    requires |s.c| <= |s'.c| && o' == Continue(env, s'.c, pend2, |s.c|, |s'.c|, tg, o)
    ensures ExpFlow(env, x, s', InBase(x), v, r1, o')
  {
    if o.Fall? {
      hide ListsOk;
      TailRun(env, x, s, e, g, tail, s'.jps, s'.c, pend2, o.r);
    } else if o.n in s.jps {
      assert o' == o && o.n in s'.jps;
    } else {
      assert Disjoint(e.ts, e.fs);
      JumpEnds(env, x, s, e, g, tail, s'.jps, s'.c, pend2, o.n, o.r, v);
      hide Shape, ListsOk, GoalOf;
      assert o' == Fall(Set(o.r, x.base, v));
    }
  }

  // --------------------------------------------------------- well-formedness

  lemma CloseWf(x: Ctx, s: Gen, e: Exp, g: Goals, tail: seq<Instr>, jpc': int, jps': seq<int>)
    requires Wf(x, s, e) && Shape(x, s, e, g, tail, jps') && x.base < s.max
    requires ListOk(ClosedState(x, s, e, g, tail, jpc', jps').c, jpc', jps')
    ensures Wf(x, ClosedState(x, s, e, g, tail, jpc', jps'), InBase(x))
      && Frame(s.c, ClosedState(x, s, e, g, tail, jpc', jps').c, x.outer)
  {
    CloseTargets(x, s, e, g, tail, jpc', jps');
    CloseCode(x, s, e, g, tail, jpc', jps');
    CloseFrame(x, s, e, g, tail);
    CloseLists(x, s, e, g, tail, jpc', jps');
    hide ListsOk, Targets, Frame, CodeOk, Closed;
  }

  lemma CloseFrame(x: Ctx, s: Gen, e: Exp, g: Goals, tail: seq<Instr>)
    requires CodeOk(x, s) && ListsOk(x, s, e)
    ensures Frame(s.c, Closed(s.c, e.ts, e.fs, g) + tail, x.outer)
  {
    var c2 := Closed(s.c, e.ts, e.fs, g) + tail;
    PendJumps(x, s, e);
    forall n | n in x.outer && 0 <= n < |s.c|
      ensures n < |c2| && c2[n] == s.c[n] && (n > 0 ==>
        IsTest(c2[n - 1]) == IsTest(s.c[n - 1]) && (IsTest(s.c[n - 1]) ==> c2[n - 1] == s.c[n - 1]))
    {
      assert n in Pend(x, s, e) && n !in e.ts && n !in e.fs;
      hide ListsOk, Pend;
      assert c2[n] == ClosedAt(s.c, e.ts, e.fs, g, n);
      if n > 0 {
        assert c2[n - 1] == ClosedAt(s.c, e.ts, e.fs, g, n - 1);
      }
    }
  }

  lemma CloseLists(x: Ctx, s: Gen, e: Exp, g: Goals, tail: seq<Instr>, jpc': int, jps': seq<int>)
    requires CodeOk(x, s) && ListsOk(x, s, e) && Shape(x, s, e, g, tail, jps')
    requires ListOk(ClosedState(x, s, e, g, tail, jpc', jps').c, jpc', jps')
    ensures ListsOk(x, ClosedState(x, s, e, g, tail, jpc', jps'), InBase(x))
  {
    var s' := ClosedState(x, s, e, g, tail, jpc', jps');
    CloseFrame(x, s, e, g, tail);
    assert forall n :: n in jps' ==> n == |s.c| || n in s.jps;
    hide ListOk, Shape, Closed;
  }

  lemma CloseCode(x: Ctx, s: Gen, e: Exp, g: Goals, tail: seq<Instr>, jpc': int, jps': seq<int>)
    requires CodeOk(x, s) && ListsOk(x, s, e) && Shape(x, s, e, g, tail, jps')
    ensures CodeOk(x, ClosedState(x, s, e, g, tail, jpc', jps'))
  {
    var s' := ClosedState(x, s, e, g, tail, jpc', jps');
    PendJumps(x, s, e);
    assert forall n :: n in e.ts || n in e.fs ==> n in Pend(x, s, e);
    hide ListsOk, Pend;
    assert forall i :: 0 <= i < |s.c| ==> s'.c[i] == ClosedAt(s.c, e.ts, e.fs, g, i);
    assert forall j :: |s.c| <= j < |s'.c| ==> s'.c[j] == tail[j - |s.c|];
    if x.org > 0 {
      assert s'.c[x.org - 1] == ClosedAt(s.c, e.ts, e.fs, g, x.org - 1);
    }
    if |tail| == 3 {
      assert tail[2] == tail[1..][1];
    }
  }

  lemma CloseTargets(x: Ctx, s: Gen, e: Exp, g: Goals, tail: seq<Instr>, jpc': int, jps': seq<int>)
    requires ListsOk(x, s, e) && Targets(x, s, e) && Shape(x, s, e, g, tail, jps')
    ensures Targets(x, ClosedState(x, s, e, g, tail, jpc', jps'), InBase(x))
  {
    var s', e' := ClosedState(x, s, e, g, tail, jpc', jps'), InBase(x);
    hide ListsOk;
    ShapeGoals(x, s, e, g, tail, s'.c, jps');
    ClosedPend(x, s, e, g, tail, jpc', jps');
    TailTargets(x, s, e, g, tail, s', jps');
    ClosedPoint(s, e, g, tail);
    hide Shape, Pend, Closed, ClosedState, ClosedAt, GoalOf;
    forall i | 0 <= i < |s'.c| && x.org <= i && s'.c[i].Jmp? && i !in Pend(x, s', e')
        ensures i + 1 + s'.c[i].sbx <= |s'.c| {
      if i < |s.c| {
        ClosedJump(s, e, g, s'.c, i);
      }
    }
    forall i | 0 <= i < |s'.c| && x.org <= i && s'.c[i].LoadBool? && s'.c[i].skip ensures i + 2 <= |s'.c| {
      if i < |s.c| {
        ClosedJump(s, e, g, s'.c, i);
      }
    }
  }

  lemma ClosedPend(x: Ctx, s: Gen, e: Exp, g: Goals, tail: seq<Instr>, jpc': int, jps': seq<int>)
    requires Shape(x, s, e, g, tail, jps')
    ensures var s', e' := ClosedState(x, s, e, g, tail, jpc', jps'), InBase(x);
      && (forall n :: n in Pend(x, s, e) && n !in e.ts && n !in e.fs ==> n in Pend(x, s', e'))
        && (|tail| == 3 ==> |s.c| in Pend(x, s', e'))
      && s'.last == |s'.c|
  {
    ClosedPoint(s, e, g, tail);
  }

  lemma ClosedJump(s: Gen, e: Exp, g: Goals, c2: seq<Instr>, i: int)
    requires 0 <= i < |s.c| <= |c2| && c2[i] == ClosedAt(s.c, e.ts, e.fs, g, i) && GoalsOk(s, e, g, c2)
    ensures c2[i].Jmp? ==> if i in e.ts || i in e.fs then i + 1 + c2[i].sbx <= |c2| else c2[i] == s.c[i]
    ensures c2[i].LoadBool? ==> c2[i] == s.c[i]
  {
  }

  lemma ClosedPoint(s: Gen, e: Exp, g: Goals, tail: seq<Instr>)
    ensures var c2 := Closed(s.c, e.ts, e.fs, g) + tail;
      |c2| == |s.c| + |tail| && (forall i :: 0 <= i < |s.c| ==> c2[i] == ClosedAt(s.c, e.ts, e.fs, g, i))
        && (forall j :: |s.c| <= j < |c2| ==> c2[j] == tail[j - |s.c|])
  {
  }

  lemma TailTargets(x: Ctx, s: Gen, e: Exp, g: Goals, tail: seq<Instr>, s': Gen, jps': seq<int>)
    requires Shape(x, s, e, g, tail, jps') && s'.c == Closed(s.c, e.ts, e.fs, g) + tail
    ensures |s'.c| == |s.c| + |tail| == g.final
    ensures forall i :: |s.c| <= i < |s'.c| ==>
      (s'.c[i].Jmp? ==> i == |s.c| && |tail| == 3) && (s'.c[i].LoadBool? && s'.c[i].skip ==> i + 2 == |s'.c|)
  {
    ClosedPoint(s, e, g, tail);
    if |tail| == 3 {
      assert tail[1] == tail[1..][0] && tail[2] == tail[1..][1];
    }
  }
}
