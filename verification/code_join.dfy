/** Jump lists are appended to each other as expressions are put together. */
module CodeJoin {
  import opened CodeVm
  import opened CodeLists
  import opened CodeFlow
  import opened CodeSem
  import opened CodeEmit
  import opened CodeOps
  import opened CodeClose

  // -------------------------------------------------------------- luaK_concat

  function ConcatCode(c: seq<Instr>, s1: seq<int>, l2: int, s2: seq<int>): seq<Instr> {
    if s1 == [] || s2 == [] then c else
    var z := s1[|s1| - 1];
    if 0 <= z < |c| then c[z := Jmp(l2 - (z + 1))] else c
  }

  function ConcatHead(l1: int, l2: int): int { if l1 == NO_JUMP then l2 else l1 }

  lemma ConcatOk(c: seq<Instr>, l1: int, s1: seq<int>, l2: int, s2: seq<int>)
    requires ListOk(c, l1, s1) && ListOk(c, l2, s2) && Disjoint(s1, s2)
    ensures var c' := ConcatCode(c, s1, l2, s2); ListOk(c', ConcatHead(l1, l2), s1 + s2) && Rethreaded(c, c', Elems(s1))
  {
    ListJumps(c, l1, s1);
    ListJumps(c, l2, s2);
    if s1 == [] {
      assert s1 + s2 == s2;
    } else if s2 == [] {
      assert s1 + s2 == s1;
    } else {
      ListConcat(c, l1, s1, l2, s2);
      assert s1[|s1| - 1] in s1;
      assert forall i :: 0 <= i < |s1| ==> (s1 + s2)[i] == s1[i] && s1[i] in s1;
      assert forall j :: |s1| <= j < |s1 + s2| ==> (s1 + s2)[j] == s2[j - |s1|] && s2[j - |s1|] in s2;
    }
  }

  lemma RethreadList(c: seq<Instr>, c': seq<Instr>, nodes: set<int>, l: int, s: seq<int>)
    requires ListOk(c, l, s) && Rethreaded(c, c', nodes) && forall n :: n in s ==> n !in nodes
    ensures ListOk(c', l, s)
  {
    ListJumps(c, l, s);
    ListFrame(c, c', l, s);
  }

  lemma RethreadFrame(c: seq<Instr>, c': seq<Instr>, nodes: set<int>, kept: set<int>)
    requires Rethreaded(c, c', nodes) && kept !! nodes
    ensures Frame(c, c', kept)
  {
  }

  lemma FrameTrans(c: seq<Instr>, c1: seq<Instr>, c2: seq<Instr>, kept: set<int>)
    requires Frame(c, c1, kept) && Frame(c1, c2, kept)
    ensures Frame(c, c2, kept)
  {
  }

  lemma FrameLess(c: seq<Instr>, c': seq<Instr>, kept: set<int>, less: set<int>)
    requires Frame(c, c', kept) && less <= kept
    ensures Frame(c, c', less)
  {
  }

  /** Offsets of open jumps do not matter for the shape of the code. */
  lemma RethreadCode(x: Ctx, s: Gen, e: Exp, s': Gen, e': Exp)
    requires CodeOk(x, s) && Targets(x, s, e) && Rethreaded(s.c, s'.c, Pend(x, s', e'))
      && Pend(x, s, e) <= Pend(x, s', e')
    requires s'.last == |s.c| || (s'.last == s.last && (s'.jps == [] || s'.jps == s.jps))
    ensures CodeOk(x, s') && Targets(x, s', e')
  {
    hide Pend;
    assert forall i :: 0 <= i < |s.c| && i !in Pend(x, s', e') ==> s'.c[i] == s.c[i];
  }

  // ----------------------------------------------------------- test and jump

  ghost function ListOf(e: Exp, cond: bool): seq<int> { if cond then e.ts else e.fs }

  function HeadOf(e: Exp, cond: bool): int { if cond then e.t else e.f }

  ghost function WithList(e: Exp, cond: bool, l: int, s: seq<int>): Exp {
    if cond then e.(t := l, ts := s) else e.(f := l, fs := s)
  }

  /** condjump, and its jump put into the list for cond. */
  ghost function BranchState(x: Ctx, s: Gen, e: Exp, i: Instr, cond: bool): Gen {
    var s1 := TestedState(x, s, i);
    s1.(c := ConcatCode(s1.c, ListOf(e, cond), |s.c| + 1, [|s.c| + 1]))
  }

  ghost function BranchExp(s: Gen, e: Exp, cond: bool, k': Kind): Exp {
    WithList(e, cond, ConcatHead(HeadOf(e, cond), |s.c| + 1), ListOf(e, cond) + [|s.c| + 1]).(k := k')
  }

  lemma BranchLists(x: Ctx, s1: Gen, e: Exp, node: int, cond: bool, s2: Gen, e2: Exp)
    requires ListsOk(x, s1, e) && s1.jps == [] && 0 <= node < |s1.c| && s1.c[node] == Jmp(NO_JUMP) && x.org <= node
      && node !in Own(x, e)
    requires s2 == s1.(c := ConcatCode(s1.c, ListOf(e, cond), node, [node]))
    requires e2 == WithList(e, cond, ConcatHead(HeadOf(e, cond), node), ListOf(e, cond) + [node]).(k := e2.k)
    ensures ListsOk(x, s2, e2) && Rethreaded(s1.c, s2.c, Elems(ListOf(e, cond))) && Frame(s1.c, s2.c, x.outer)
    ensures Pend(x, s2, e2) == Pend(x, s1, e) + {node}
  {
    assert IsList(s1.c, NO_JUMP, []);
    assert [node][1..] == [];
    assert ListOk(s1.c, node, [node]);
    assert node !in ListOf(e, cond);
    ConcatOk(s1.c, HeadOf(e, cond), ListOf(e, cond), node, [node]);
    RethreadFrame(s1.c, s2.c, Elems(ListOf(e, cond)), x.outer);
    RethreadList(s1.c, s2.c, Elems(ListOf(e, cond)), HeadOf(e, !cond), ListOf(e, !cond));
    hide ListOk, Rethreaded;
    assert forall n :: n in ListOf(e2, cond) <==> n in ListOf(e, cond) || n == node;
  }

  lemma BranchOk(x: Ctx, s: Gen, e: Exp, i: Instr, cond: bool, k': Kind)
    requires Wf(x, s, e) && Judge(x, s, e) && Decides(s, e.k, i, cond, k') && (k'.VCond? || k' == VFalse)
    ensures Wf(x, BranchState(x, s, e, i, cond), BranchExp(s, e, cond, k'))
    ensures Judge(x, BranchState(x, s, e, i, cond), BranchExp(s, e, cond, k'))
    ensures Frame(s.c, BranchState(x, s, e, i, cond).c, x.outer)
  {
    var s1, e1 := TestedState(x, s, i), Branched(e, |s.c| + 1, cond, k');
    var s2, e2 := BranchState(x, s, e, i, cond), BranchExp(s, e, cond, k');
    hide Wf, Judge, Decides, ListsOk, Targets, Frame, CodeOk, Pend, Landed, Own;
    TestWf(x, s, e, i) by { assert IsTest(i) by { IsDecider(s, e.k, i, cond, k'); } }
    TestJudge(x, s, e, i, cond, k');
    BranchLists(x, s1, e, |s.c| + 1, cond, s2, e2);
    BranchFrame(s, s1, s2, x, e);
    Rejoin(x, s1, e, e1, s2, e2, |s.c| + 1);
    BranchRegs(x, s, e, s2, e2);
  }

  lemma IsDecider(s: Gen, k: Kind, i: Instr, cond: bool, k': Kind)
    requires Decides(s, k, i, cond, k')
    ensures IsTest(i)
  {
  }

  lemma BranchRegs(x: Ctx, s: Gen, e: Exp, s2: Gen, e2: Exp)
    requires Wf(x, s, e) && CodeOk(x, s2) && ListsOk(x, s2, e2) && Targets(x, s2, e2) && (e2.k.VCond? || e2.k == VFalse)
    requires s2.nact == s.nact && s2.max == s.max && s2.freereg == x.base
    ensures Wf(x, s2, e2)
  {
    hide CodeOk, ListsOk, Targets;
  }

  lemma BranchFrame(s: Gen, s1: Gen, s2: Gen, x: Ctx, e: Exp)
    requires Frame(s.c, s1.c, Own(x, e)) && Frame(s1.c, s2.c, x.outer)
    ensures Frame(s.c, s2.c, x.outer)
  {
    FrameLess(s.c, s1.c, Own(x, e), x.outer);
    FrameTrans(s.c, s1.c, s2.c, x.outer);
  }

  lemma Rejoin(x: Ctx, s1: Gen, e: Exp, e1: Exp, s2: Gen, e2: Exp, node: int)
    requires CodeOk(x, s1) && Targets(x, s1, e) && Judge(x, s1, e1) && ListsOk(x, s2, e2) && SameExp(e1, e2)
    requires s1.jps == [] && s2 == s1.(c := s2.c) && Pend(x, s2, e2) == Pend(x, s1, e) + {node}
    requires exists b :: Rethreaded(s1.c, s2.c, Elems(ListOf(e, b)))
    ensures CodeOk(x, s2) && Targets(x, s2, e2) && Judge(x, s2, e2)
  {
    PendJumps(x, s2, e2);
    assert Pend(x, s1, e1) == Pend(x, s2, e2);
    assert forall b :: Elems(ListOf(e, b)) <= Pend(x, s2, e2);
    hide ListsOk, Pend, Targets, CodeOk, Judge;
    assert Rethreaded(s1.c, s2.c, Pend(x, s2, e2)) && forall n :: n in Pend(x, s2, e2) ==> s1.c[n].Jmp?;
    hide Rethreaded;
    RethreadCode(x, s1, e, s2, e2);
    RethreadJudge(x, s1, e1, s2, e2);
  }

  // -------------------------------------------------------- luaK_patchtohere

  /** The jumps of the list for b are made to wait for the next instruction. */
  ghost function HereState(s: Gen, e: Exp, b: bool): Gen {
    s.(c := ConcatCode(s.c, s.jps, HeadOf(e, b), ListOf(e, b)), jpc := ConcatHead(s.jpc, HeadOf(e, b)),
      jps := s.jps + ListOf(e, b), last := |s.c|)
  }

  ghost function HereExp(e: Exp, b: bool): Exp { WithList(e, b, NO_JUMP, []) }

  lemma HereLists(x: Ctx, s: Gen, e: Exp, b: bool)
    requires ListsOk(x, s, e)
    ensures ListsOk(x, HereState(s, e, b), HereExp(e, b)) && Rethreaded(s.c, HereState(s, e, b).c, Elems(s.jps))
    ensures Frame(s.c, HereState(s, e, b).c, x.outer + Elems(ListOf(e, !b)))
    ensures Pend(x, HereState(s, e, b), HereExp(e, b)) == Pend(x, s, e)
  {
    var s', e' := HereState(s, e, b), HereExp(e, b);
    ConcatOk(s.c, s.jpc, s.jps, HeadOf(e, b), ListOf(e, b));
    RethreadFrame(s.c, s'.c, Elems(s.jps), x.outer + Elems(ListOf(e, !b)));
    RethreadList(s.c, s'.c, Elems(s.jps), HeadOf(e, !b), ListOf(e, !b));
    assert IsList(s'.c, NO_JUMP, []) && ListOk(s'.c, NO_JUMP, []);
    hide ListOk, Rethreaded, ConcatCode;
    assert forall n :: n in s'.jps <==> n in s.jps || n in ListOf(e, b);
  }

  lemma HereOk(x: Ctx, s: Gen, e: Exp, b: bool)
    requires Wf(x, s, e) && Judge(x, s, e) && e.k == VCond(b)
    ensures Wf(x, HereState(s, e, b), HereExp(e, b)) && Judge(x, HereState(s, e, b), HereExp(e, b))
    ensures Frame(s.c, HereState(s, e, b).c, x.outer)
  {
    var s', e' := HereState(s, e, b), HereExp(e, b);
    var s1 := s.(jps := s'.jps, jpc := s'.jpc, last := s'.last);
    hide ListsOk, Targets, Frame, ConcatCode, Judge, CodeOk;
    HereLists(x, s, e, b);
    PendJumps(x, s, e);
    assert Elems(s'.jps) == Elems(s.jps) + Elems(ListOf(e, b));
    assert Disjoint(e.ts, e.fs) by { ListsApart(x, s, e); }
    HereJudge(x, s, e, s1, e', b);
    assert Pend(x, s1, e') == Pend(x, s, e) && Elems(s.jps) <= Pend(x, s, e);
    FrameLess(s.c, s'.c, x.outer + Elems(ListOf(e, !b)), x.outer);
    hide Pend, ListOf;
    assert Rethreaded(s.c, s'.c, Pend(x, s', e'));
    hide Rethreaded;
    assert CodeOk(x, s1) by { HereCode(x, s, s1); }
    RethreadCode(x, s, e, s', e');
    RethreadJudge(x, s1, e', s', e');
  }

  lemma ListsApart(x: Ctx, s: Gen, e: Exp)
    requires ListsOk(x, s, e)
    ensures Disjoint(e.ts, e.fs)
  {
  }

  lemma HereCode(x: Ctx, s: Gen, s1: Gen)
    requires CodeOk(x, s) && s1.c == s.c && s1.last == |s.c|
    ensures CodeOk(x, s1)
  {
  }

  // --------------------------------------------------------------- and, or

  /** Both operators: go on with the second operand when the truth of the first is b. */
  function Logic(b: bool, e1: Expr, e2: Expr): Expr { if b then And(e1, e2) else Or(e1, e2) }

  /** Wants the value of an expression where the context wants anything. */
  function ValueOf(env: Env, e: Expr, w: Want): Want { if w.Wants? then Wants(Eval(env, e, w.r), w.r) else w }

  ghost function For(y: Ctx, e: Expr): Ctx { y.(q := (env: Env, r: Regs) => ValueOf(env, e, y.q(env, r))) }

  /** Code made from now on starts where code so far ends up with the value of kind VCond. */
  function AfterThis(s: Gen, w: Want, o: Outcome): Want {
    if !w.Wants? then w else if Arrives(s, o) then Wants(Nil, o.r) else Away(o)
  }

  ghost function NextWant(y: Ctx, s: Gen, e: Exp, env: Env, r: Regs): Want {
    if 0 <= y.org <= |s.c| && Fits(env, y, s, r) then AfterThis(s, y.q(env, r), Out(env, y, s, e, r)) else DontCare
  }

  ghost function Next2(y: Ctx, s: Gen, e: Exp, base: int): Ctx {
    Ctx(y.org, y.outer + Elems(e.ts) + Elems(e.fs), base, (env: Env, r: Regs) => NextWant(y, s, e, env, r))
  }

  /** The second operand starts out well. */
  lemma NextJudge(x: Ctx, s: Gen, e: Exp, base: int)
    requires Judge(x, s, e)
    ensures Judge(Next2(x, s, e, base), s, NO_EXP)
  {
    var y := Next2(x, s, e, base);
    assert Pend(y, s, NO_EXP) == Pend(x, s, e);
    forall env: Env, r: Regs | Fits(env, y, s, r) ensures JudgeAt(env, y, s, NO_EXP, r) {
      assert Fits(env, x, s, r) && JudgeAt(env, x, s, e, r);
    }
  }

  lemma NextOk(x: Ctx, s: Gen, e: Exp)
    requires Wf(x, s, e) && Judge(x, s, e)
    ensures Wf(Next2(x, s, e, s.freereg), s, NO_EXP) && Judge(Next2(x, s, e, s.freereg), s, NO_EXP)
  {
    var y := Next2(x, s, e, s.freereg);
    NextJudge(x, s, e, s.freereg);
    assert Pend(y, s, NO_EXP) == Pend(x, s, e);
    PendJumps(x, s, e);
    assert ListsOk(y, s, NO_EXP) && CodeOk(y, s);
    hide ListsOk, CodeOk, Pend;
    assert Targets(y, s, NO_EXP) by { TargetsSame(x, y, s, e, NO_EXP); }
    hide Targets, Judge;
  }

  /** The two operands together, jumps of the first kept open in the meantime. */
  lemma LogicJudge(y: Ctx, b: bool, e1: Expr, e2: Expr, s: Gen, d: Exp, s': Gen, d': Exp, d2: Exp)
    requires Judge(For(y, e1), s, d) && d.k == VCond(b) && ListOf(d, b) == [] && InScope(e1, s.nact)
      && InScope(e2, s.nact) && s.nact <= y.base
    requires Judge(For(Next2(For(y, e1), s, d, y.base), e2), s', d')
    requires Frame(s.c, s'.c, Elems(ListOf(d, !b))) && s.k <= s'.k && s.max <= s'.max && s'.nact == s.nact
    requires d2 == WithList(d', !b, HeadOf(d2, !b), ListOf(d', !b) + ListOf(d, !b))
      && ListsOk(For(Next2(For(y, e1), s, d, y.base), e2), s', d')
    requires forall n :: n in ListOf(d, !b) ==> 0 <= n < |s.c| && n !in y.outer
    ensures Judge(For(y, Logic(b, e1, e2)), s', d2)
  {
    var x1, x2, x := For(y, e1), For(Next2(For(y, e1), s, d, y.base), e2), For(y, Logic(b, e1, e2));
    ListInOuter(y.outer, d, !b);
    OuterApart(x2, s', d');
    SamePend(y, b, e1, e2, s, d, s', d', d2);
    assert 0 <= y.org <= |s.c| && y.org <= |s'.c|;
    hide ListsOk, Frame, Pend, ListOf, WithList, InScope, JudgeAt;
    forall env: Env, r: Regs | Fits(env, x, s', r) ensures JudgeAt(env, x, s', d2, r) {
      assert Fits(env, x1, s, r) && JudgeAt(env, x1, s, d, r);
      assert Fits(env, x2, s', r) && JudgeAt(env, x2, s', d', r);
      LogicAt(env, y, b, e1, e2, s, d, s', d', d2, r);
    }
  }

  lemma ListInOuter(outer: set<int>, d: Exp, b: bool)
    ensures forall n :: n in ListOf(d, b) ==> n in outer + Elems(d.ts) + Elems(d.fs)
  {
  }

  lemma OuterApart(x: Ctx, s: Gen, e: Exp)
    requires ListsOk(x, s, e)
    ensures forall n :: n in x.outer ==> n !in s.jps && n !in e.ts && n !in e.fs
  {
  }

  lemma SamePend(y: Ctx, b: bool, e1: Expr, e2: Expr, s: Gen, d: Exp, s': Gen, d': Exp, d2: Exp)
    requires d2 == WithList(d', !b, HeadOf(d2, !b), ListOf(d', !b) + ListOf(d, !b)) && ListOf(d, b) == []
    ensures Pend(For(y, Logic(b, e1, e2)), s', d2) == Pend(For(Next2(For(y, e1), s, d, y.base), e2), s', d')
  {
  }

  lemma LogicAt(env: Env, y: Ctx, b: bool, e1: Expr, e2: Expr, s: Gen, d: Exp, s': Gen, d': Exp, d2: Exp, r: Regs)
    requires 0 <= y.org <= |s.c| && y.org <= |s'.c|
    requires d.k == VCond(b) && ListOf(d, b) == [] && InScope(e1, s.nact) && InScope(e2, s.nact) && s.nact <= y.base
    requires Fits(env, y, s, r) && JudgeAt(env, For(y, e1), s, d, r)
      && JudgeAt(env, For(Next2(For(y, e1), s, d, y.base), e2), s', d', r)
    requires Frame(s.c, s'.c, Elems(ListOf(d, !b)))
    requires d2 == WithList(d', !b, HeadOf(d2, !b), ListOf(d', !b) + ListOf(d, !b))
    requires forall n :: n in ListOf(d, !b) ==>
      0 <= n < |s.c| && n !in y.outer && n !in s'.jps && n !in d'.ts && n !in d'.fs
    requires Pend(For(y, Logic(b, e1, e2)), s', d2) == Pend(For(Next2(For(y, e1), s, d, y.base), e2), s', d')
    ensures JudgeAt(env, For(y, Logic(b, e1, e2)), s', d2, r)
  {
    var x1, x2, x := For(y, e1), For(Next2(For(y, e1), s, d, y.base), e2), For(y, Logic(b, e1, e2));
    if y.q(env, r).Wants? {
      var r0 := y.q(env, r).r;
      var o, o' := Out(env, x1, s, d, r), Out(env, x2, s', d', r);
      assert Next2(x1, s, d, y.base).q(env, r) == AfterThis(s, x1.q(env, r), o);
      assert Out(env, x, s', d2, r) == o';
      hide Pend, Out, Frame;
      if Arrives(s, o) {
        assert x2.q(env, r) == Wants(Eval(env, e2, o.r), o.r);
        EvalSame(env, e2, r0, o.r, y.base, s.nact);
      } else {
        assert x2.q(env, r) == Away(o);
        FrameJumpVal(s.c, s'.c, Elems(ListOf(d, !b)), o.n, o.r, Eval(env, e1, r0), !b);
      }
    } else {
      assert Out(env, x, s', d2, r) == Out(env, x2, s', d', r);
    }
  }

  ghost function LogicState(s': Gen, d: Exp, d': Exp, b: bool): Gen {
    s'.(c := ConcatCode(s'.c, ListOf(d', !b), HeadOf(d, !b), ListOf(d, !b)))
  }

  ghost function LogicExp(d: Exp, d': Exp, b: bool): Exp {
    WithList(d', !b, ConcatHead(HeadOf(d', !b), HeadOf(d, !b)), ListOf(d', !b) + ListOf(d, !b))
  }

  /** Everything known when the second operand has been compiled. */
  ghost predicate Operands(y: Ctx, b: bool, e1: Expr, e2: Expr, s: Gen, d: Exp, s': Gen, d': Exp) {
    && Wf(For(y, e1), s, d) && Judge(For(y, e1), s, d) && d.k == VCond(b) && ListOf(d, b) == []
    && Wf(For(Next2(For(y, e1), s, d, y.base), e2), s', d') && Judge(For(Next2(For(y, e1), s, d, y.base), e2), s', d')
    && InScope(e1, s.nact) && InScope(e2, s.nact) && Grows(s, s')
    && Frame(s.c, s'.c, y.outer + Elems(d.ts) + Elems(d.fs))
  }

  ghost predicate Grows(s: Gen, s': Gen) { s.k <= s'.k && s.max <= s'.max && s'.nact == s.nact }

  /** The lists of both operands are lists in the code with the two put together. */
  lemma LogicThread(b: bool, x2: Ctx, s: Gen, d: Exp, s': Gen, d': Exp)
    requires ListOk(s.c, HeadOf(d, !b), ListOf(d, !b)) && ListsOk(x2, s', d') && Frame(s.c, s'.c, Elems(ListOf(d, !b)))
    requires forall n :: n in ListOf(d, !b) ==> n in x2.outer
    ensures var c2, d2 := LogicState(s', d, d', b).c, LogicExp(d, d', b);
      && ListOk(c2, HeadOf(d2, !b), ListOf(d2, !b)) && ListOk(c2, HeadOf(d2, b), ListOf(d2, b))
      && ListOk(c2, s'.jpc, s'.jps)
      && Rethreaded(s'.c, c2, Elems(ListOf(d', !b)))
  {
    var c2, old2, new2 := LogicState(s', d, d', b).c, ListOf(d, !b), ListOf(d', !b);
    ListJumps(s.c, HeadOf(d, !b), old2);
    ListFrame(s.c, s'.c, HeadOf(d, !b), old2);
    ConcatOk(s'.c, HeadOf(d', !b), new2, HeadOf(d, !b), old2);
    RethreadList(s'.c, c2, Elems(new2), HeadOf(d', b), ListOf(d', b));
    RethreadList(s'.c, c2, Elems(new2), s'.jpc, s'.jps);
  }

  lemma LogicLists(y: Ctx, b: bool, x1: Ctx, x2: Ctx, s: Gen, d: Exp, s': Gen, d': Exp)
    requires ListsOk(x1, s, d) && ListsOk(x2, s', d') && ListOf(d, b) == [] && Frame(s.c, s'.c, Elems(ListOf(d, !b)))
    requires x1.org == x2.org == y.org && x1.outer == y.outer && x2.outer == y.outer + Elems(d.ts) + Elems(d.fs)
    ensures ListsOk(y, LogicState(s', d, d', b), LogicExp(d, d', b))
      && Rethreaded(s'.c, LogicState(s', d, d', b).c, Elems(ListOf(d', !b)))
    ensures Frame(s'.c, LogicState(s', d, d', b).c, y.outer)
  {
    var c2, d2 := LogicState(s', d, d', b).c, LogicExp(d, d', b);
    var old2, new2 := ListOf(d, !b), ListOf(d', !b);
    assert forall n :: n in old2 ==> n in x2.outer;
    assert Elems(new2) !! y.outer;
    hide ListOk, Rethreaded, ConcatCode, Frame;
    LogicThread(b, x2, s, d, s', d');
    RethreadFrame(s'.c, c2, Elems(new2), y.outer);
    assert forall n :: n in ListOf(d2, !b) <==> n in new2 || n in old2;
    FrameJumps(s'.c, c2, y.outer);
  }

  lemma FrameJumps(c: seq<Instr>, c': seq<Instr>, kept: set<int>)
    requires Frame(c, c', kept)
    ensures forall n :: n in kept && 0 <= n < |c| && c[n].Jmp? ==> n < |c'| && c'[n].Jmp?
  {
  }

  lemma LogicPend(y: Ctx, b: bool, x2: Ctx, d: Exp, s': Gen, d': Exp)
    requires x2.outer == y.outer + Elems(d.ts) + Elems(d.fs) && ListOf(d, b) == []
    ensures Pend(y, LogicState(s', d, d', b), LogicExp(d, d', b)) == Pend(x2, s', d')
  {
  }

  lemma LogicOk(y: Ctx, b: bool, e1: Expr, e2: Expr, s: Gen, d: Exp, s': Gen, d': Exp)
    requires Operands(y, b, e1, e2, s, d, s', d')
    ensures Wf(For(y, Logic(b, e1, e2)), LogicState(s', d, d', b), LogicExp(d, d', b))
    ensures Judge(For(y, Logic(b, e1, e2)), LogicState(s', d, d', b), LogicExp(d, d', b))
    ensures Frame(s.c, LogicState(s', d, d', b).c, y.outer)
  {
    var x1, x2, x := For(y, e1), For(Next2(For(y, e1), s, d, y.base), e2), For(y, Logic(b, e1, e2));
    var s2, d2 := LogicState(s', d, d', b), LogicExp(d, d', b);
    hide Judge, CodeOk, ListsOk, Targets, Frame;
    FrameLess(s.c, s'.c, x2.outer, Elems(ListOf(d, !b)));
    FrameLess(s.c, s'.c, x2.outer, y.outer);
    LogicLists(x, b, x1, x2, s, d, s', d');
    LogicPend(x, b, x2, d, s', d');
    FrameTrans(s.c, s'.c, s2.c, y.outer);
    LogicNodes(x1, s, d, !b);
    LogicJudge(y, b, e1, e2, s, d, s', d', d2);
    LogicCode(x, x2, s', d', s2, d2, b);
  }

  lemma LogicNodes(x: Ctx, s: Gen, d: Exp, b: bool)
    requires ListsOk(x, s, d)
    ensures forall n :: n in ListOf(d, b) ==> 0 <= n < |s.c| && n !in x.outer
  {
    PendJumps(x, s, d);
    assert forall n :: n in ListOf(d, b) ==> n in Pend(x, s, d);
  }

  lemma LogicCode(x: Ctx, x2: Ctx, s': Gen, d': Exp, s2: Gen, d2: Exp, b: bool)
    requires Rethreaded(s'.c, s2.c, Elems(ListOf(d', !b))) && Pend(x, s2, d2) == Pend(x2, s', d') && Wf(x2, s', d')
      && Judge(x, s', d2)
    requires ListsOk(x, s2, d2) && x2.org == x.org && x2.base == x.base && s2 == s'.(c := s2.c) && d2.k == d'.k
    ensures Wf(x, s2, d2) && Judge(x, s2, d2)
  {
    assert Elems(ListOf(d', !b)) <= Pend(x, s2, d2);
    assert Pend(x, s', d2) == Pend(x, s2, d2);
    PendJumps(x, s2, d2);
    hide ListsOk, Pend, Judge, Targets;
    assert CodeOk(x, s');
    hide CodeOk;
    assert Targets(x, s', d2) by { TargetsSame(x2, x, s', d', d2); }
    assert Rethreaded(s'.c, s2.c, Pend(x, s2, d2)) && forall n :: n in Pend(x, s2, d2) ==> s'.c[n].Jmp?;
    hide Rethreaded;
    RethreadCode(x, s', d2, s2, d2);
    RethreadJudge(x, s', d2, s2, d2);
  }

  lemma TargetsSame(x: Ctx, x': Ctx, s: Gen, e: Exp, e': Exp)
    requires Targets(x, s, e) && Pend(x', s, e') == Pend(x, s, e) && x'.org == x.org
    ensures Targets(x', s, e')
  {
    hide Pend;
  }
}
