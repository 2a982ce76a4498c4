/** What happens to the runs of a stretch of code when code is added behind it and some of
    its open jumps are given targets there. */
module CodeFlow {
  import opened CodeVm
  import opened CodeLists

  /** pc does not point at a jump that belongs to a test. */
  predicate Start(c: seq<Instr>, pc: int) { pc == 0 || (1 <= pc <= |c| && !IsTest(c[pc - 1])) }

  predicate SameTest(i: Instr, i': Instr) {
    i' == i || (i.TestSet? && (i' == Test(i.b, i.c) || (i'.TestSet? && i'.b == i.b && i'.c == i.c)))
  }

  /** Between org and end, c2 is c with the open jumps of tg given targets not before end. */
  ghost predicate Links(c: seq<Instr>, c2: seq<Instr>, org: int, end: int, pend: set<int>, pend2: set<int>,
      tg: map<int, int>) {
    && 0 <= org <= end <= |c| && end <= |c2|
    && forall i :: org <= i < end ==> LinkedAt(c, c2, end, pend, pend2, tg, i)
  }

  ghost predicate LinkedAt(c: seq<Instr>, c2: seq<Instr>, end: int, pend: set<int>, pend2: set<int>,
      tg: map<int, int>, i: int)
    requires 0 <= i < end <= |c| && end <= |c2|
  {
    if i in tg then
      && i in pend && i !in pend2 && c[i].Jmp? && end <= tg[i] <= |c2|
      && c2[i] == Jmp(tg[i] - (i + 1)) && !IsTest(c2[tg[i] - 1])
    else
      && (i in pend2 <==> i in pend)
      && if i in pend then c[i].Jmp? && c2[i].Jmp?
         else c2[i] == c[i] || ((i + 1 in tg || i + 1 in pend2) && SameTest(c[i], c2[i]))
  }

  /** The registers after a jump whose test sets one. */
  function After(c: seq<Instr>, n: int, r: Regs): Regs {
    if 1 <= n <= |c| && c[n - 1].TestSet? then Set(r, c[n - 1].a, Get(r, c[n - 1].b)) else r
  }

  function Continue(env: Env, c: seq<Instr>, pend: set<int>, end: int, end2: int, tg: map<int, int>,
    o: Outcome): Outcome
    requires 0 <= end <= end2 <= |c|
  {
    match o
    case Fall(r) => Run(env, c, pend, end, end2, r)
    case Exit(n, r) => if n in tg && end <= tg[n] <= end2 then Run(env, c, pend, tg[n], end2, After(c, n, r)) else o
    case Stuck => Stuck
  }

  lemma {:induction false} LinkFlow(env: Env, c: seq<Instr>, c2: seq<Instr>, org: int, end: int, end2: int,
                                    pend: set<int>, pend2: set<int>, tg: map<int, int>, pc: int, r: Regs)
    requires Links(c, c2, org, end, pend, pend2, tg) && org <= pc <= end <= end2 <= |c2|
    requires Start(c, pc) && Start(c2, pc) && forall n :: n in tg ==> tg[n] <= end2
    requires Run(env, c, pend, pc, end, r) != Stuck
    ensures Run(env, c2, pend2, pc, end2, r) == Continue(env, c2, pend2, end, end2, tg, Run(env, c, pend, pc, end, r))
    decreases end - pc
  {
    if pc < end {
      assert LinkedAt(c, c2, end, pend, pend2, tg, pc);
      var i := c[pc];
      if IsTest(i) {
        assert Run(env, c, pend, pc, end, r) == RunTest(env, c, pend, pc, end, r);
        LinkTest(env, c, c2, org, end, end2, pend, pend2, tg, pc, r);
      } else if i.Jmp? {
        if pc !in pend {
          LinkGoto(env, c, c2, org, end, end2, pend, pend2, tg, pc, pc + 1 + i.sbx, r);
        }
      } else if i.LoadBool? && i.skip {
        LinkGoto(env, c, c2, org, end, end2, pend, pend2, tg, pc, pc + 2, Set(r, i.a, Bool(i.v)));
      } else {
        var r' := if i.LoadNil? then SetNils(r, i.a, i.b)
            else if i.LoadBool? then Set(r, i.a, Bool(i.v)) else Set(r, i.a, Loaded(env, i, r));
        LinkFlow(env, c, c2, org, end, end2, pend, pend2, tg, pc + 1, r');
      }
    }
  }

  lemma LinkGoto(env: Env, c: seq<Instr>, c2: seq<Instr>, org: int, end: int, end2: int,
                 pend: set<int>, pend2: set<int>, tg: map<int, int>, pc: int, target: int, r: Regs)
    requires Links(c, c2, org, end, pend, pend2, tg) && org <= pc < end <= end2 <= |c2|
    requires forall n :: n in tg ==> tg[n] <= end2
    requires Goto(env, c, pend, pc, target, end, r) != Stuck
    ensures Goto(env, c2, pend2, pc, target, end2, r) ==
      Continue(env, c2, pend2, end, end2, tg, Goto(env, c, pend, pc, target, end, r))
    decreases end - pc, 0
  {
    assert LinkedAt(c, c2, end, pend, pend2, tg, target - 1);
    LinkFlow(env, c, c2, org, end, end2, pend, pend2, tg, target, r);
  }

  lemma LinkTest(env: Env, c: seq<Instr>, c2: seq<Instr>, org: int, end: int, end2: int,
                 pend: set<int>, pend2: set<int>, tg: map<int, int>, pc: int, r: Regs)
    requires Links(c, c2, org, end, pend, pend2, tg) && org <= pc < end <= end2 <= |c2| && IsTest(c[pc])
    requires forall n :: n in tg ==> tg[n] <= end2
    requires RunTest(env, c, pend, pc, end, r) != Stuck
    ensures Run(env, c2, pend2, pc, end2, r) ==
      Continue(env, c2, pend2, end, end2, tg, RunTest(env, c, pend, pc, end, r))
    decreases end - pc, 1
  {
    assert LinkedAt(c, c2, end, pend, pend2, tg, pc) && LinkedAt(c, c2, end, pend, pend2, tg, pc + 1);
    assert IsTest(c2[pc]) && Taken(env, c2[pc], r) == Taken(env, c[pc], r);
    assert Run(env, c2, pend2, pc, end2, r) == RunTest(env, c2, pend2, pc, end2, r);
    if !Taken(env, c[pc], r) {
      LinkFlow(env, c, c2, org, end, end2, pend, pend2, tg, pc + 2, r);
    } else if pc + 1 in tg {
      var t, r' := tg[pc + 1], After(c2, pc + 1, r);
      assert RunTest(env, c2, pend2, pc, end2, r) == Goto(env, c2, pend2, pc, t, end2, r');
      assert Goto(env, c2, pend2, pc, t, end2, r') == Run(env, c2, pend2, t, end2, r');
      assert RunTest(env, c, pend, pc, end, r) == Exit(pc + 1, r);
    } else if pc + 1 !in pend {
      assert c2[pc] == c[pc] && c2[pc + 1] == c[pc + 1];
      var r' := if c[pc].TestSet? then Set(r, c[pc].a, Get(r, c[pc].b)) else r;
      LinkGoto(env, c, c2, org, end, end2, pend, pend2, tg, pc, pc + 2 + c[pc + 1].sbx, r');
    }
  }
}
