/** Lists of jumps to the same place, threaded through the jump offsets themselves, and
    how they are patched. */
module CodeLists {
  import opened Shared
  import opened CodeVm

  function Elems(s: seq<int>): set<int> { set n | n in s }

  predicate AreJumps(c: seq<Instr>, s: seq<int>) { forall n :: n in s ==> 0 <= n < |c| && c[n].Jmp? }

  /** getjump: an offset that would make a jump point to itself marks the end of a list. */
  function Next(c: seq<Instr>, n: int): int
    requires 0 <= n < |c| && c[n].Jmp?
  {
    if c[n].sbx == NO_JUMP then NO_JUMP else n + 1 + c[n].sbx
  }

  /** l heads a list made of exactly the jumps of s, in that order. */
  ghost predicate IsList(c: seq<Instr>, l: int, s: seq<int>)
    decreases |s|
  {
    if s == [] then l == NO_JUMP else l == s[0] && 0 <= l < |c| && c[l].Jmp? && IsList(c, Next(c, l), s[1..])
  }

  ghost predicate ListOk(c: seq<Instr>, l: int, s: seq<int>) { IsList(c, l, s) && NoDup(s) }

  lemma {:induction false} ListJumps(c: seq<Instr>, l: int, s: seq<int>)
    requires IsList(c, l, s)
    ensures AreJumps(c, s) && (l == NO_JUMP <==> s == [])
    decreases |s|
  {
    if s != [] {
      ListJumps(c, Next(c, l), s[1..]);
      assert forall n :: n in s ==> n == s[0] || n in s[1..];
    }
  }

  /** A list does not depend on instructions that are not in it. */
  lemma {:induction false} ListFrame(c: seq<Instr>, c': seq<Instr>, l: int, s: seq<int>)
    requires IsList(c, l, s) && forall n :: n in s && 0 <= n < |c| ==> n < |c'| && c'[n] == c[n]
    ensures IsList(c', l, s)
    decreases |s|
  {
    if s != [] {
      assert s[0] in s && forall n :: n in s[1..] ==> n in s;
      ListFrame(c, c', Next(c, l), s[1..]);
    }
  }

  /** luaK_concat, seen from the last jump of the first list. */
  lemma {:induction false} ListConcat(c: seq<Instr>, l1: int, s1: seq<int>, l2: int, s2: seq<int>)
    requires IsList(c, l1, s1) && IsList(c, l2, s2) && s1 != [] && s2 != [] && NoDup(s1)
    requires forall n :: n in s1 ==> n !in s2
    ensures var z := s1[|s1| - 1]; 0 <= z < |c| && IsList(c[z := Jmp(l2 - (z + 1))], l1, s1 + s2)
    decreases |s1|
  {
    var z := s1[|s1| - 1];
    ListJumps(c, l1, s1);
    assert z in s1;
    var c' := c[z := Jmp(l2 - (z + 1))];
    if |s1| == 1 {
      assert s1 + s2 == [s1[0]] + s2 && (s1 + s2)[1..] == s2;
      ListFrame(c, c', l2, s2);
      ListJumps(c, l2, s2);
      assert l2 in s2;
    } else {
      assert s1[1..][|s1| - 2] == z;
      ListConcat(c, Next(c, l1), s1[1..], l2, s2);
      assert (s1 + s2)[1..] == s1[1..] + s2;
      assert s1[0] != z;
    }
  }

  // ------------------------------------------------------------------ patching

  /** patchtestreg and fixjump for one jump, seen at position i of the code: a TESTSET in
      front of the jump takes the register or becomes a TEST. */
  function Retest(i: Instr, reg: int): Instr
    requires i.TestSet?
  {
    if reg != NO_REG && reg != i.b then TestSet(reg, i.b, i.c) else Test(i.b, i.c)
  }

  predicate HasTestSet(c: seq<Instr>, n: int) { 1 <= n <= |c| && c[n - 1].TestSet? }

  function Target(c: seq<Instr>, n: int, vtarget: int, dtarget: int): int {
    if HasTestSet(c, n) then vtarget else dtarget
  }

  function PatchOne(c: seq<Instr>, n: int, vtarget: int, reg: int, dtarget: int): seq<Instr>
    requires 0 <= n < |c|
  {
    var c1 := if HasTestSet(c, n) then c[n - 1 := Retest(c[n - 1], reg)] else c;
    c1[n := Jmp(Target(c, n, vtarget, dtarget) - (n + 1))]
  }

  /** The instruction at i after all jumps of s have been patched. */
  function PatchedAt(c: seq<Instr>, s: seq<int>, vtarget: int, reg: int, dtarget: int, i: int): Instr
    requires 0 <= i < |c|
  {
    if i in s then Jmp(Target(c, i, vtarget, dtarget) - (i + 1))
    else if i + 1 in s && c[i].TestSet? then Retest(c[i], reg)
    else c[i]
  }

  function Patched(c: seq<Instr>, s: seq<int>, vtarget: int, reg: int, dtarget: int): seq<Instr> {
    seq(|c|, i requires 0 <= i < |c| => PatchedAt(c, s, vtarget, reg, dtarget, i))
  }

  /** Patching the first jump and then the rest patches them all. */
  lemma PatchStep(c: seq<Instr>, s: seq<int>, vtarget: int, reg: int, dtarget: int)
    requires s != [] && 0 <= s[0] < |c| && NoDup(s) && AreJumps(c, s)
    ensures Patched(c, s, vtarget, reg, dtarget) ==
      Patched(PatchOne(c, s[0], vtarget, reg, dtarget), s[1..], vtarget, reg, dtarget)
    ensures AreJumps(PatchOne(c, s[0], vtarget, reg, dtarget), s[1..])
  {
    var n, rest := s[0], s[1..];
    assert n in s && n !in rest && forall x :: x in s <==> x == n || x in rest;
    var c1 := PatchOne(c, n, vtarget, reg, dtarget);
    forall x | x in rest ensures HasTestSet(c1, x) == HasTestSet(c, x) && c1[x] == c[x] {
      assert x in s;
    }
    forall i | 0 <= i < |c|
      ensures PatchedAt(c, s, vtarget, reg, dtarget, i) == PatchedAt(c1, rest, vtarget, reg, dtarget, i)
    {
      if i == n {
      } else if i in rest {
        assert i in s;
      } else if i + 1 == n && c[i].TestSet? {
        assert i + 1 !in rest;
      } else {
        assert c1[i] == c[i];
      }
    }
  }
}
