/** The meaning of a partly compiled expression: where runs of the code made so far end up,
    and where the value of the expression is then to be found. */
module CodeSem {
  import opened CodeVm
  import opened CodeLists
  import opened CodeFlow

  // ------------------------------------------------------------- expressions

  datatype CmpOp = EQ | NE | LT | LE | GT | GE

  datatype Expr =
    | Const(v: Value)       // nil, true, false, a number
    | Str(v: Value)
    | Local(r: int)
    | Up(i: nat)
    | Neg(e: Expr)
    | And(a: Expr, b: Expr)
    | Or(a: Expr, b: Expr)
    | Rel(op: CmpOp, a: Expr, b: Expr)

  function Related(env: Env, op: CmpOp, x: Value, y: Value): bool {
    match op
    case EQ => x == y
    case NE => x != y
    case LT => env.lt(x, y)
    case LE => env.le(x, y)
    case GT => env.lt(y, x)
    case GE => env.le(y, x)
  }

  /** The value of an expression (sections 2.5.2 and 2.5.3 of the Lua 5.1 manual). */
  function Eval(env: Env, e: Expr, r: Regs): Value {
    match e
    case Const(v) => v
    case Str(v) => v
    case Local(i) => Get(r, i)
    case Up(i) => Upvalue(env, i)
    case Neg(a) => Bool(!Truthy(Eval(env, a, r)))
    case And(a, b) => var x := Eval(env, a, r); if Truthy(x) then Eval(env, b, r) else x
    case Or(a, b) => var x := Eval(env, a, r); if Truthy(x) then x else Eval(env, b, r)
    case Rel(op, a, b) => Bool(Related(env, op, Eval(env, a, r), Eval(env, b, r)))
  }

  /** What operands and operators stand for: only nil and false are not true, and the operators
      and and or give one of their operands, the second only if the first does not decide. */
  lemma Meanings(env: Env, r: Regs, i: nat, a: Expr, b: Expr)
    ensures i < |env.u| ==> Eval(env, Up(i), r) == env.u[i]
    ensures i < |r| ==> Eval(env, Local(i), r) == r[i]
    ensures var no := Eval(env, a, r) == Nil || Eval(env, a, r) == Bool(false);
      && Eval(env, Neg(a), r) == Bool(no)
      && Eval(env, And(a, b), r) == (if no then Eval(env, a, r) else Eval(env, b, r))
      && Eval(env, Or(a, b), r) == (if no then Eval(env, b, r) else Eval(env, a, r))
  {
  }

  /** What comparisons stand for. */
  lemma Comparisons(env: Env, r: Regs, a: Expr, b: Expr, op: CmpOp)
    ensures var x, y := Eval(env, a, r), Eval(env, b, r);
      Eval(env, Rel(op, a, b), r) == Bool(
        if op == EQ then x == y else if op == NE then x != y
        else if op == LT then env.lt(x, y) else if op == GT then env.lt(y, x)
        else if op == LE then env.le(x, y) else env.le(y, x))
  {
  }

  /** Locals are the registers below n. */
  predicate InScope(e: Expr, n: int) {
    match e
    case Const(_) => true
    case Str(v) => v.Data?
    case Local(i) => 0 <= i < n
    case Up(_) => true
    case Neg(a) => InScope(a, n)
    case And(a, b) => InScope(a, n) && InScope(b, n)
    case Or(a, b) => InScope(a, n) && InScope(b, n)
    case Rel(_, a, b) => InScope(a, n) && InScope(b, n)
  }

  predicate Same(r: Regs, r': Regs, n: int) { |r'| == |r| && forall i :: 0 <= i < n && i < |r| ==> r'[i] == r[i] }

  lemma EvalSame(env: Env, e: Expr, r: Regs, r': Regs, n: int, m: int)
    requires InScope(e, m) && Same(r, r', n) && m <= n
    ensures Eval(env, e, r') == Eval(env, e, r)
  {
  }

  // -------------------------------------------------- states of the generator

  datatype Kind =
    | VNil | VTrue | VFalse | VK(n: nat) | VKNum(v: Value)
    | VLocal(r: int) | VUpval(u: nat) | VNonReloc(r: int) | VReloc(pc: int) | VJmp(pc: int)
    // in proofs only: the value is what instruction i loads, or whether test i succeeds;
    // control gets here just when the truth of the value is b
    | VInstr(i: Instr) | VTest(i: Instr) | VCond(b: bool)

  /** An expression descriptor; ts and fs are the jumps of its two lists. */
  datatype Exp = Exp(k: Kind, t: int, f: int, ghost ts: seq<int>, ghost fs: seq<int>)

  datatype Gen = Gen(c: seq<Instr>, jpc: int, jps: seq<int>, k: seq<Value>, freereg: int, nact: int, max: int,
    last: int)

  /** What a run of the code so far should lead to: the same outcome as before, or a value
      to be computed starting from given registers. */
  datatype Want = DontCare | Away(o: Outcome) | Wants(v: Value, r: Regs)

  /** The code concerned starts at org; outer are open jumps of enclosing expressions; the
      registers below base must not be changed. */
  datatype Ctx = Ctx(org: int, outer: set<int>, base: int, q: (Env, Regs) -> Want)

  ghost function Pend(x: Ctx, s: Gen, e: Exp): set<int> {
    x.outer + Elems(s.jps) + Elems(e.ts) + Elems(e.fs)
  }

  /** Where the value is when control gets to the end of the code. */
  ghost predicate KindSem(env: Env, k: Kind, r: Regs, v: Value) {
    match k
    case VNil => v == Nil
    case VTrue => v == Bool(true)
    case VFalse => v == Bool(false)
    case VK(i) => v == Konst(env, i)
    case VKNum(n) => v == n
    case VLocal(i) => v == Get(r, i)
    case VUpval(i) => v == Upvalue(env, i)
    case VNonReloc(i) => v == Get(r, i)
    case VInstr(i) => v == Loaded(env, i, r)
    case VTest(i) => v == Bool(Taken(env, i, r))
    case VCond(b) => Truthy(v) == b
    case VReloc(_) => false
    case VJmp(_) => false
  }

  /** Where the value is when a jump of a list is taken. */
  ghost predicate JumpVal(c: seq<Instr>, n: int, r: Regs, v: Value, b: bool) {
    Truthy(v) == b && if HasTestSet(c, n) then v == Get(r, c[n - 1].b) else v == Bool(b)
  }

  ghost predicate ExpFlow(env: Env, x: Ctx, s: Gen, e: Exp, v: Value, r: Regs, o: Outcome) {
    match o
    case Stuck => false
    case Fall(r') => Same(r, r', x.base) && KindSem(env, e.k, r', v)
    case Exit(n, r') =>
      && Same(r, r', x.base)
      && if n in s.jps then KindSem(env, e.k, r', v)
         else if n in e.ts then JumpVal(s.c, n, r', v, true)
         else n in e.fs && JumpVal(s.c, n, r', v, false)
  }

  /** The constants so far are part of the final table, the registers are enough and, at the
      start of a function, those of no local are nil. */
  ghost predicate Fits(env: Env, x: Ctx, s: Gen, r: Regs) {
    s.k <= env.k && |r| >= s.max && (x.org == 0 ==> forall i :: 0 <= i < |r| && s.nact <= i ==> r[i] == Nil)
  }

  ghost function Out(env: Env, x: Ctx, s: Gen, e: Exp, r: Regs): Outcome
    requires 0 <= x.org <= |s.c|
  {
    Run(env, s.c, Pend(x, s, e), x.org, |s.c|, r)
  }

  ghost predicate JudgeAt(env: Env, x: Ctx, s: Gen, e: Exp, r: Regs)
    requires 0 <= x.org <= |s.c|
  {
    match x.q(env, r)
    case DontCare => true
    case Away(o) => Out(env, x, s, e, r) == o && o.Exit? && o.n in x.outer
    case Wants(v, r1) => ExpFlow(env, x, s, e, v, r1, Out(env, x, s, e, r)) && |r1| == |r|
  }

  /** The code made so far does right by the expression. */
  ghost predicate Judge(x: Ctx, s: Gen, e: Exp) {
    && 0 <= x.org <= |s.c|
    && forall env, r :: Fits(env, x, s, r) ==> JudgeAt(env, x, s, e, r)
  }

  // ------------------------------------------------------- well-formed states

  ghost predicate Disjoint(a: seq<int>, b: seq<int>) { forall n :: n in a ==> n !in b }

  /** The lists are lists and share no jump. */
  ghost predicate ListsOk(x: Ctx, s: Gen, e: Exp) {
    && ListOk(s.c, s.jpc, s.jps) && ListOk(s.c, e.t, e.ts) && ListOk(s.c, e.f, e.fs)
    && Disjoint(s.jps, e.ts) && Disjoint(s.jps, e.fs) && Disjoint(e.ts, e.fs)
    && (forall n :: n in x.outer ==> 0 <= n < |s.c| && s.c[n].Jmp? && n !in s.jps && n !in e.ts && n !in e.fs)
    && (forall n :: n in e.ts || n in e.fs ==> x.org <= n)
  }

  /** Resolved jumps stay inside the code, and land at its very end only if that is a label. */
  ghost predicate Targets(x: Ctx, s: Gen, e: Exp) {
    && (forall i :: 0 <= i < |s.c| && x.org <= i && s.c[i].Jmp? && i !in Pend(x, s, e) ==>
          i + 1 + s.c[i].sbx < |s.c| || (i + 1 + s.c[i].sbx == |s.c| && s.last == |s.c|))
    && (s.jps != [] ==> s.last == |s.c|) && s.last <= |s.c|
    && (forall i :: 0 <= i < |s.c| && x.org <= i && s.c[i].LoadBool? && s.c[i].skip ==>
      i + 2 < |s.c| || (i + 2 == |s.c| && s.last == |s.c|))
  }

  ghost predicate KindOk(x: Ctx, s: Gen, e: Exp) {
    match e.k
    case VReloc(_) => false
    case VJmp(_) => false
    case VK(i) => i < |s.k| && s.k[i].Data?
    case VKNum(v) => v.Data?
    case VLocal(r) => 0 <= r < s.nact
    case VNonReloc(r) => 0 <= r < s.freereg && (r >= s.nact ==> r == x.base == s.freereg - 1)
    case _ => true
  }

  ghost predicate RegsOk(x: Ctx, s: Gen, e: Exp) {
    && 0 <= s.nact <= x.base <= s.freereg <= s.max
    && (s.freereg == x.base || (s.freereg == x.base + 1 && e.k == VNonReloc(x.base)))
  }

  ghost predicate CodeOk(x: Ctx, s: Gen) {
    && 0 <= x.org <= |s.c| && (s.c == [] || !IsTest(s.c[|s.c| - 1])) && Start(s.c, x.org)
    // a LOADNIL in front of the code concerned is out of reach
    && (x.org == |s.c| ==> s.c == [] || s.last == |s.c| || !s.c[|s.c| - 1].LoadNil?)
    && -1 <= s.last
  }

  ghost predicate Wf(x: Ctx, s: Gen, e: Exp) {
    CodeOk(x, s) && ListsOk(x, s, e) && Targets(x, s, e) && KindOk(x, s, e) && RegsOk(x, s, e)
  }

  /** The instruction of a relocatable value, and the test and jump of a comparison, may
      still be changed or removed: the proper state of the expression is without them. */
  ghost function Bare(s: Gen, e: Exp): Gen {
    if e.k.VReloc? && |s.c| >= 1 then s.(c := s.c[..|s.c| - 1])
    else if e.k.VJmp? && |s.c| >= 2 then s.(c := s.c[..|s.c| - 2])
    else s
  }

  ghost function BareExp(s: Gen, e: Exp): Exp {
    if e.k.VReloc? && |s.c| >= 1 then e.(k := VInstr(s.c[|s.c| - 1]))
    else if e.k.VJmp? && |s.c| >= 2 then e.(k := VTest(s.c[|s.c| - 2]))
    else e
  }

  /** The code generator is in a good state for the expression wanted. */
  ghost predicate Good(x: Ctx, s: Gen, e: Exp) {
    && (e.k.VReloc? ==> e.k.pc == |s.c| - 1 >= 0 && s.jps == [] && (s.c[e.k.pc].Not? || s.c[e.k.pc].GetUpval?))
    && (e.k.VJmp? ==>
          && e.k.pc == |s.c| - 1 >= 1 && s.jps == []
          && s.c[e.k.pc] == Jmp(NO_JUMP) && s.c[e.k.pc - 1].Compare?)
    && !e.k.VInstr? && !e.k.VTest? && !e.k.VCond?
    && Wf(x, Bare(s, e), BareExp(s, e)) && Judge(x, Bare(s, e), BareExp(s, e))
  }

  /** Open jumps that the state need not know about stay as they are, tests included. */
  ghost predicate Frame(c: seq<Instr>, c': seq<Instr>, kept: set<int>) {
    forall n :: n in kept && 0 <= n < |c| ==>
      && n < |c'| && c'[n] == c[n] && (n > 0 ==>
        IsTest(c'[n - 1]) == IsTest(c[n - 1]) && (IsTest(c[n - 1]) ==> c'[n - 1] == c[n - 1]))
  }
}
