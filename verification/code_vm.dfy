/** Instructions of the Lua virtual machine that expressions without calls compile to,
    and what they do. */
module CodeVm {

  /** Data stands for every value but nil and the booleans. */
  datatype Value = Nil | Bool(b: bool) | Data(id: int)

  predicate Truthy(v: Value) { v != Nil && v != Bool(false) }

  datatype Cmp = Eq | Lt | Le

  datatype Operand = Reg(r: int) | Kst(k: nat)

  const NO_REG := -1
  const NO_JUMP := -1

  datatype Instr =
    | Move(a: int, b: int)
    | LoadK(a: int, k: nat)
    | LoadBool(a: int, v: bool, skip: bool)
    | LoadNil(a: int, b: int)
    | GetUpval(a: int, i: nat)
    | Not(a: int, b: int)
    | Jmp(sbx: int)
    | Compare(op: Cmp, cond: bool, x: Operand, y: Operand)
    | Test(a: int, c: bool)
    | TestSet(a: int, b: int, c: bool)

  /** Instructions that decide whether the jump after them is taken. */
  predicate IsTest(i: Instr) { i.Compare? || i.Test? || i.TestSet? }

  type Regs = seq<Value>

  /** The constants and upvalues of the function, and an arbitrary meaning for < and <=. */
  datatype Env = Env(k: seq<Value>, u: seq<Value>, lt: (Value, Value) -> bool, le: (Value, Value) -> bool)

  function Get(r: Regs, i: int): Value { if 0 <= i < |r| then r[i] else Nil }

  function Set(r: Regs, i: int, v: Value): Regs { if 0 <= i < |r| then r[i := v] else r }

  function Konst(env: Env, i: nat): Value { if i < |env.k| then env.k[i] else Nil }

  function Upvalue(env: Env, i: nat): Value { if i < |env.u| then env.u[i] else Nil }

  function Rk(env: Env, r: Regs, x: Operand): Value { if x.Reg? then Get(r, x.r) else Konst(env, x.k) }

  function Holds(env: Env, op: Cmp, x: Value, y: Value): bool {
    match op
    case Eq => x == y
    case Lt => env.lt(x, y)
    case Le => env.le(x, y)
  }

  function SetNils(r: Regs, a: int, b: int): Regs
    decreases b - a
  {
    if b < a then r else if b == a then Set(r, a, Nil) else Set(SetNils(r, a, b - 1), b, Nil)
  }

  /** The value a register gets from an instruction that loads one. */
  function Loaded(env: Env, i: Instr, r: Regs): Value {
    match i
    case Move(_, b) => Get(r, b)
    case LoadK(_, k) => Konst(env, k)
    case LoadBool(_, v, _) => Bool(v)
    case GetUpval(_, u) => Upvalue(env, u)
    case Not(_, b) => Bool(!Truthy(Get(r, b)))
    case _ => Nil
  }

  /** Does a test instruction take the jump that follows it? */
  function Taken(env: Env, i: Instr, r: Regs): bool {
    match i
    case Compare(op, cond, x, y) => Holds(env, op, Rk(env, r, x), Rk(env, r, y)) == cond
    case Test(a, c) => Truthy(Get(r, a)) == c
    case TestSet(_, b, c) => Truthy(Get(r, b)) == c
    case _ => false
  }

  // ------------------------------------------------------------- the machine

  datatype Vm = Vm(pc: int, r: Regs)

  /** One step of luaV_execute; a test and the jump after it are one step. */
  function Step(env: Env, c: seq<Instr>, s: Vm): Vm {
    if !(0 <= s.pc < |c|) then s else
    var i := c[s.pc];
    match i
    case Jmp(sbx) => Vm(s.pc + 1 + sbx, s.r)
    case LoadNil(a, b) => Vm(s.pc + 1, SetNils(s.r, a, b))
    case LoadBool(a, v, skip) => Vm(s.pc + (if skip then 2 else 1), Set(s.r, a, Bool(v)))
    case Compare(_, _, _, _) => TestStep(env, c, s)
    case Test(_, _) => TestStep(env, c, s)
    case TestSet(_, _, _) => TestStep(env, c, s)
    case _ => Vm(s.pc + 1, Set(s.r, i.a, Loaded(env, i, s.r)))
  }

  function TestStep(env: Env, c: seq<Instr>, s: Vm): Vm
    requires 0 <= s.pc < |c|
  {
    var i := c[s.pc];
    if Taken(env, i, s.r) && s.pc + 1 < |c| && c[s.pc + 1].Jmp? then
      Vm(s.pc + 2 + c[s.pc + 1].sbx, if i.TestSet? then Set(s.r, i.a, Get(s.r, i.b)) else s.r)
    else
      Vm(s.pc + 2, s.r)
  }

  function Steps(env: Env, c: seq<Instr>, s: Vm, n: nat): Vm
    decreases n
  {
    if n == 0 then s else Steps(env, c, Step(env, c, s), n - 1)
  }

  // --------------------------------------- running code that is still being made

  /** How a stretch of code is left: by falling off its end, by a jump whose target is
      still to be filled in, or (wrongly) in some other way. */
  datatype Outcome = Fall(r: Regs) | Exit(n: int, r: Regs) | Stuck

  /** Run code from pc up to end; jumps in pend have no target yet. Every jump goes forward,
      and none lands on a jump that belongs to a test. */
  function Run(env: Env, c: seq<Instr>, pend: set<int>, pc: int, end: int, r: Regs): Outcome
    requires 0 <= pc <= end <= |c|
    decreases end - pc, 2
  {
    if pc == end then Fall(r) else
    var i := c[pc];
    match i
    case Jmp(sbx) => if pc in pend then Exit(pc, r) else Goto(env, c, pend, pc, pc + 1 + sbx, end, r)
    case LoadNil(a, b) => Run(env, c, pend, pc + 1, end, SetNils(r, a, b))
    case LoadBool(a, v, skip) =>
      if skip then Goto(env, c, pend, pc, pc + 2, end, Set(r, a, Bool(v)))
          else Run(env, c, pend, pc + 1, end, Set(r, a, Bool(v)))
    case Compare(_, _, _, _) => RunTest(env, c, pend, pc, end, r)
    case Test(_, _) => RunTest(env, c, pend, pc, end, r)
    case TestSet(_, _, _) => RunTest(env, c, pend, pc, end, r)
    case _ => Run(env, c, pend, pc + 1, end, Set(r, i.a, Loaded(env, i, r)))
  }

  function Goto(env: Env, c: seq<Instr>, pend: set<int>, pc: int, target: int, end: int, r: Regs): Outcome
    requires 0 <= pc < end <= |c|
    decreases end - pc, 0
  {
    if pc < target <= end && !IsTest(c[target - 1]) then Run(env, c, pend, target, end, r) else Stuck
  }

  function RunTest(env: Env, c: seq<Instr>, pend: set<int>, pc: int, end: int, r: Regs): Outcome
    requires 0 <= pc < end <= |c|
    decreases end - pc, 1
  {
    var i := c[pc];
    if pc + 1 >= end || !c[pc + 1].Jmp? then Stuck
    else if !Taken(env, i, r) then Run(env, c, pend, pc + 2, end, r)
    else if pc + 1 in pend then Exit(pc + 1, r)
    else Goto(env, c, pend, pc, pc + 2 + c[pc + 1].sbx, end, if i.TestSet? then Set(r, i.a, Get(r, i.b)) else r)
  }

  lemma StepRun(env: Env, c: seq<Instr>, pc: int, end: int, r: Regs)
    requires 0 <= pc < end <= |c| && Run(env, c, {}, pc, end, r).Fall?
    ensures var s := Step(env, c, Vm(pc, r));
      pc < s.pc <= end && Run(env, c, {}, pc, end, r) == Run(env, c, {}, s.pc, end, s.r)
  {
    var s, i := Step(env, c, Vm(pc, r)), c[pc];
    if IsTest(i) {
      assert Run(env, c, {}, pc, end, r) == RunTest(env, c, {}, pc, end, r);
      assert s == TestStep(env, c, Vm(pc, r));
      if Taken(env, i, r) {
        assert RunTest(env, c, {}, pc, end, r) == Goto(env, c, {}, pc, s.pc, end, s.r);
      }
    } else if i.Jmp? || (i.LoadBool? && i.skip) {
      assert Run(env, c, {}, pc, end, r) == Goto(env, c, {}, pc, s.pc, end, s.r);
    } else {
      assert s.pc == pc + 1;
    }
  }

  /** Once no jump is left open, running is what the machine does. */
  lemma {:induction false} RunIsMachine(env: Env, c: seq<Instr>, pc: int, end: int, r: Regs) returns (n: nat)
    requires 0 <= pc <= end <= |c| && Run(env, c, {}, pc, end, r).Fall?
    ensures Steps(env, c, Vm(pc, r), n) == Vm(end, Run(env, c, {}, pc, end, r).r)
    decreases end - pc
  {
    if pc == end {
      n := 0;
    } else {
      var s := Step(env, c, Vm(pc, r));
      StepRun(env, c, pc, end, r);
      n := RunIsMachine(env, c, s.pc, end, s.r);
      n := n + 1;
    }
  }
}
