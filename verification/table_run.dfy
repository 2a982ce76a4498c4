/** Whole runs of a table against a finite map. */
module TableRun {
  import opened Shared
  import opened TableChain
  import opened TableSizes
  import opened TableState
  import opened TableCore
  import opened TableLen

  /** Collect stands for the collector, which may mark keys without values as dead. */
  datatype Op = DoGet(key: TValue) | DoSet(key: TValue, val: TValue) | DoGrow(n: nat) | DoLength
              | Collect(which: set<int>)

  datatype Answer = Got(val: TValue) | Done(st: Status) | Len(n: nat)

  /** What a finite map would answer; a length may be any boundary. A table of 2^26 entries may
      refuse another one. */
  ghost predicate Answers(m: map<TValue, TValue>, op: Op, a: Answer) {
    match op
    case DoGet(key) => a == Got(if key in m then m[key] else Nil)
    case DoSet(key, _) =>
      if key == Nil then a == Done(NilIndex) else if key == NaN then a == Done(NaNIndex)
      else a == Done(Ok) || (a == Done(Overflow) && key !in m && |m| >= Pow2(MAXBITS))
    case DoGrow(_) => a == Done(Ok)
    case Collect(_) => a == Done(Ok)
    case DoLength => a.Len? && Boundary(m, a.n)
  }

  /** Only a set that succeeds changes anything. */
  ghost function After(m: map<TValue, TValue>, op: Op, a: Answer): map<TValue, TValue> {
    if op.DoSet? && a == Done(Ok) then Put(m, op.key, op.val) else m
  }

  ghost function AfterAll(m: map<TValue, TValue>, ops: seq<Op>, answers: seq<Answer>): map<TValue, TValue>
    requires |ops| == |answers|
  {
    if ops == [] then m else
    After(AfterAll(m, ops[..|ops| - 1], answers[..|ops| - 1]), ops[|ops| - 1], answers[|ops| - 1])
  }

  /** The answers are those of a finite map that starts out as m. */
  ghost predicate Agrees(m: map<TValue, TValue>, ops: seq<Op>, answers: seq<Answer>) {
    |answers| <= |ops| &&
    forall i :: 0 <= i < |answers| ==> Answers(AfterAll(m, ops[..i], answers[..i]), ops[i], answers[i])
  }

  /** Any program run on any new table gets the answers of a finite map, for all its operations:
      also after a set has been refused with "table overflow", which changes nothing and can
      happen only to a new key in a table of 2^26 entries. */
  method Run(h: Hash, narray: nat, nhash: nat, ops: seq<Op>) returns (t: Table, answers: seq<Answer>)
    requires narray <= Pow2(MAXBITS) && nhash <= Pow2(MAXBITS)
    ensures |answers| == |ops| && Agrees(map[], ops, answers)
    ensures t.Valid() && t.contents == AfterAll(map[], ops, answers)
  {
    t := new Table(h, narray, nhash);
    answers := [];
    hide Pow2, Table.Valid, Answers, Agrees, After, AfterAll;
    NoneYet(ops);
    for i := 0 to |ops|
      invariant |answers| == i && fresh(t) && t.Valid() && Agrees(map[], ops, answers)
        && t.contents == AfterAll(map[], ops[..i], answers)
    {
      var a := Step(t, ops[i]);
      AgreesMore(map[], ops, answers, a);
      answers := answers + [a];
    }
    assert ops[..|ops|] == ops;
  }

  lemma NoneYet(ops: seq<Op>)
    ensures ops[..0] == [] && Agrees(map[], ops, []) && AfterAll(map[], [], []) == map[]
  {
  }

  lemma AgreesMore(m: map<TValue, TValue>, ops: seq<Op>, answers: seq<Answer>, a: Answer)
    requires |answers| < |ops| && Agrees(m, ops, answers)
      && Answers(AfterAll(m, ops[..|answers|], answers), ops[|answers|], a)
    ensures Agrees(m, ops, answers + [a])
    ensures AfterAll(m, ops[..|answers| + 1], answers + [a]) ==
      After(AfterAll(m, ops[..|answers|], answers), ops[|answers|], a)
  {
    hide Answers, After;
    var n, answers' := |answers|, answers + [a];
    assert ops[..n + 1][..n] == ops[..n] && ops[..n + 1][n] == ops[n] && answers'[..n] == answers;
    forall i | 0 <= i < |answers'| ensures Answers(AfterAll(m, ops[..i], answers'[..i]), ops[i], answers'[i]) {
      assert i < n ==> answers'[..i] == answers[..i];
    }
  }

  method Step(t: Table, op: Op) returns (a: Answer)
    requires t.Valid()
    modifies t
    ensures t.Valid() && Answers(old(t.contents), op, a) && t.contents == After(old(t.contents), op, a)
  {
    hide Pow2, Shape, Holds, Put, Room, Kept, HasEntry;
    match op
    case DoGet(key) =>
      var v := t.Get(key);
      a := Got(v);
    case DoSet(key, val) =>
      var st := t.SetValue(key, val);
      a := Done(st);
    case DoGrow(n) =>
      if |t.arr| <= n <= Pow2(MAXBITS) {
        t.ResizeArray(n);
      }
      a := Done(Ok);
    case Collect(which) =>
      t.KillKeys(which);
      a := Done(Ok);
    case DoLength =>
      var n := GetN(t);
      a := Len(n);
  }
}
