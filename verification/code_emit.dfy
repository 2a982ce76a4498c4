/** What adding an instruction does to the runs of the code. */
module CodeEmit {
  import opened CodeVm
  import opened CodeLists
  import opened CodeFlow
  import opened CodeSem

  /** The code once the jumps waiting for the next instruction lead to it. */
  function Landed(s: Gen): seq<Instr> { Patched(s.c, s.jps, |s.c|, NO_REG, |s.c|) }

  function LandedAll(s: Gen): map<int, int> { map n | n in s.jps :: |s.c| }

  predicate Plain(i: Instr) { !IsTest(i) && !i.Jmp? && !(i.LoadBool? && i.skip) }

  function Do(env: Env, i: Instr, r: Regs): Regs
    requires Plain(i)
  {
    if i.LoadNil? then SetNils(r, i.a, i.b) else Set(r, i.a, Loaded(env, i, r))
  }

  /** A run that gets to the end of the code, by itself or by a jump to there, goes on. */
  function Arrives(s: Gen, o: Outcome): bool { o.Fall? || (o.Exit? && o.n in s.jps) }

  lemma LandedLinks(x: Ctx, s: Gen, e: Exp, more: seq<Instr>, pend2: set<int>)
    requires CodeOk(x, s) && ListsOk(x, s, e)
    requires forall n :: 0 <= n < |s.c| ==> (n in pend2 <==> n in Pend(x, s, e) && n !in s.jps)
    ensures Links(s.c, Landed(s) + more, x.org, |s.c|, Pend(x, s, e), pend2, LandedAll(s))
    ensures Start(Landed(s) + more, x.org) && |Landed(s)| == |s.c| && (s.c != [] ==> !IsTest(Landed(s)[|s.c| - 1]))
    ensures forall n, r :: n in s.jps ==> After(Landed(s) + more, n, r) == r
  {
    var c2 := Landed(s) + more;
    PendJumps(x, s, e);
    hide ListsOk, Pend;
    assert forall i :: 0 <= i < |s.c| ==> c2[i] == PatchedAt(s.c, s.jps, |s.c|, NO_REG, |s.c|, i);
    forall i | x.org <= i < |s.c| ensures LinkedAt(s.c, c2, |s.c|, Pend(x, s, e), pend2, LandedAll(s), i) {
      LandsAt(s, c2, Pend(x, s, e), pend2, i);
    }
  }

  lemma PendJumps(x: Ctx, s: Gen, e: Exp)
    requires ListsOk(x, s, e)
    ensures forall n :: n in Pend(x, s, e) ==> 0 <= n < |s.c| && s.c[n].Jmp?
    ensures forall n :: n in s.jps ==> n in Pend(x, s, e)
  {
    ListJumps(s.c, s.jpc, s.jps);
    ListJumps(s.c, e.t, e.ts);
    ListJumps(s.c, e.f, e.fs);
  }

  lemma LandsAt(s: Gen, c2: seq<Instr>, pend: set<int>, pend2: set<int>, i: int)
    requires 0 <= i < |s.c| <= |c2| && (forall n :: n in pend ==> 0 <= n < |s.c| && s.c[n].Jmp?)
      && (forall n :: n in s.jps ==> n in pend)
    requires forall n :: 0 <= n < |s.c| ==> (n in pend2 <==> n in pend && n !in s.jps)
    requires forall j :: 0 <= j < |s.c| ==> c2[j] == PatchedAt(s.c, s.jps, |s.c|, NO_REG, |s.c|, j)
    requires !IsTest(s.c[|s.c| - 1])
    ensures LinkedAt(s.c, c2, |s.c|, pend, pend2, LandedAll(s), i)
  {
    var z := |s.c| - 1;
    assert c2[z] == PatchedAt(s.c, s.jps, |s.c|, NO_REG, |s.c|, z);
    assert !IsTest(c2[z]);
  }

  /** Adding an instruction that is neither a test nor a jump. */
  lemma EmitRun(env: Env, x: Ctx, s: Gen, e: Exp, i: Instr, pend2: set<int>, r: Regs)
    requires CodeOk(x, s) && ListsOk(x, s, e) && Plain(i)
    requires forall n :: 0 <= n < |s.c| ==> (n in pend2 <==> n in Pend(x, s, e) && n !in s.jps)
    requires Out(env, x, s, e, r) != Stuck
    ensures |Landed(s)| == |s.c|
    ensures var o := Out(env, x, s, e, r);
      Run(env, Landed(s) + [i], pend2, x.org, |s.c| + 1, r) == if Arrives(s, o) then Fall(Do(env, i, o.r)) else o
  {
    var c2 := Landed(s) + [i];
    LandedLinks(x, s, e, [i], pend2);
    hide ListsOk, Pend, Links, Landed, CodeOk;
    LinkFlow(env, s.c, c2, x.org, |s.c|, |s.c| + 1, Pend(x, s, e), pend2, LandedAll(s), x.org, r);
    var o := Out(env, x, s, e, r);
    if Arrives(s, o) {
      assert c2[|s.c|] == i;
      assert Run(env, c2, pend2, |s.c|, |s.c| + 1, o.r) == Run(env, c2, pend2, |s.c| + 1, |s.c| + 1, Do(env, i, o.r));
    }
  }

  /** Adding a test and its jump, left open. */
  lemma CondRun(env: Env, x: Ctx, s: Gen, e: Exp, i: Instr, pend2: set<int>, r: Regs)
    requires CodeOk(x, s) && ListsOk(x, s, e) && IsTest(i)
    requires forall n :: 0 <= n < |s.c| ==> (n in pend2 <==> n in Pend(x, s, e) && n !in s.jps)
    requires |s.c| + 1 in pend2
    requires Out(env, x, s, e, r) != Stuck
    ensures |Landed(s)| == |s.c|
    ensures var o := Out(env, x, s, e, r);
      Run(env, Landed(s) + [i, Jmp(NO_JUMP)], pend2, x.org, |s.c| + 2, r) ==
        if Arrives(s, o) then (if Taken(env, i, o.r) then Exit(|s.c| + 1, o.r) else Fall(o.r)) else o
  {
    var c2 := Landed(s) + [i, Jmp(NO_JUMP)];
    LandedLinks(x, s, e, [i, Jmp(NO_JUMP)], pend2);
    hide ListsOk, Pend, Links, Landed, CodeOk;
    LinkFlow(env, s.c, c2, x.org, |s.c|, |s.c| + 2, Pend(x, s, e), pend2, LandedAll(s), x.org, r);
    var o := Out(env, x, s, e, r);
    if Arrives(s, o) {
      assert c2[|s.c|] == i && c2[|s.c| + 1] == Jmp(NO_JUMP);
      assert Run(env, c2, pend2, |s.c|, |s.c| + 2, o.r) == RunTest(env, c2, pend2, |s.c|, |s.c| + 2, o.r);
      if Taken(env, i, o.r) {
        assert RunTest(env, c2, pend2, |s.c|, |s.c| + 2, o.r) == Exit(|s.c| + 1, o.r);
      } else {
        assert Run(env, c2, pend2, |s.c| + 2, |s.c| + 2, o.r) == Fall(o.r);
      }
    }
  }

  /** Runs do not see the offsets of open jumps, nor whether an open jump's test would set
      a register. */
  lemma SameRun(env: Env, c: seq<Instr>, c2: seq<Instr>, pend: set<int>, org: int, end: int, r: Regs)
    requires 0 <= org <= end <= |c| == |c2| && Start(c, org) && Start(c2, org)
    requires forall i :: 0 <= i < |c| && i in pend ==> c[i].Jmp? && c2[i].Jmp?
    requires forall i :: 0 <= i < |c| && i !in pend ==> c2[i] == c[i] || (i + 1 in pend && SameTest(c[i], c2[i]))
    requires Run(env, c, pend, org, end, r) != Stuck
    ensures Run(env, c2, pend, org, end, r) == Run(env, c, pend, org, end, r)
  {
    LinkFlow(env, c, c2, org, end, end, pend, pend, map[], org, r);
  }
}
