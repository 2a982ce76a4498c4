/** Writing a chunk (ldump.c) through a writer that may give up at any time. */
module DumpWrite {
  import opened Shared
  import opened DumpFormat

  /** What is left of a function in a stripped dump. */
  function Stripped(f: Proto): Proto
    decreases f, 0
  {
    f.(source := None, p := StrippedAll(f.p), lineinfo := [], locvars := [], upvalues := [])
  }

  function StrippedAll(fs: seq<Proto>): (r: seq<Proto>)
    ensures |r| == |fs|
    decreases fs, 1
  {
    if fs == [] then [] else [Stripped(fs[0])] + StrippedAll(fs[1..])
  }

  lemma {:induction false} StrippedAt(fs: seq<Proto>, i: nat)
    requires i < |fs|
    ensures StrippedAll(fs)[i] == Stripped(fs[i])
    decreases fs
  {
    if i > 0 {
      StrippedAt(fs[1..], i - 1);
    }
  }

  lemma {:induction false} StrippedFits(f: Proto)
    requires Fits(f)
    ensures Fits(Stripped(f))
    decreases f
  {
    forall i | 0 <= i < |f.p| ensures Fits(Stripped(f).p[i]) {
      StrippedAt(f.p, i);
      StrippedFits(f.p[i]);
    }
  }

  function Shown(f: Proto, strip: bool): Proto { if strip then Stripped(f) else f }

  class DumpState {
    /** The status that the writer returns, given what it has taken and what it is offered. */
    const writer: (seq<Byte>, seq<Byte>) -> int
    const strip: bool
    var out: seq<Byte>
    var status: int
    /** All that should have been written so far. */
    ghost var sent: seq<Byte>

    /** A failure of the writer is remembered: the output then stays a part of what was to come. */
    ghost predicate Valid()
      reads this
    {
      out <= sent && (status == 0 ==> out == sent)
    }

    constructor (w: (seq<Byte>, seq<Byte>) -> int, s: bool)
      ensures Valid() && writer == w && strip == s && sent == [] && status == 0
    {
      writer, strip, out, status, sent := w, s, [], 0, [];
    }

    method DumpBlock(b: seq<Byte>)
      requires Valid()
      modifies this
      ensures Valid() && sent == old(sent) + b && (old(status) != 0 ==> status == old(status) && out == old(out))
    {
      sent := sent + b;
      if status == 0 {
        status := writer(out, b);
        if status == 0 {
          out := out + b;
        }
      }
    }

    method DumpInt(x: int)
      requires Valid() && IsInt(x)
      modifies this
      ensures Valid() && sent == old(sent) + EncInt(x)
    {
      DumpBlock(EncInt(x));
    }

    method DumpString(s: Option<Str>)
      requires Valid() && FitsStr(s)
      modifies this
      ensures Valid() && sent == old(sent) + EncString(s)
    {
      hide Le;
      if s.None? {
        DumpBlock(Le(0, SIZE_SIZE));
      } else {
        DumpBlock(Le(|s.v| + 1, SIZE_SIZE));
        DumpBlock(s.v + [0]);
      }
    }

    method DumpConstant(c: Constant)
      requires Valid() && FitsConstant(c)
      modifies this
      ensures Valid() && sent == old(sent) + EncConstant(c)
    {
      hide Le, EncString, FitsStr;
      match c
      case KNil =>
        DumpBlock([0]);
      case KBool(b) =>
        DumpBlock([1]);
        DumpBlock([if b then 1 else 0]);
      case KNumber(bits) =>
        DumpBlock([3]);
        DumpBlock(Le(bits, SIZE_NUMBER));
      case KString(s) =>
        DumpBlock([4]);
        DumpString(s);
    }

    method DumpConstants(k: seq<Constant>)
      requires Valid() && forall i :: 0 <= i < |k| ==> FitsConstant(k[i])
      modifies this
      ensures Valid() && sent == old(sent) + EncConstants(k)
    {
      hide FitsConstant, EncConstant;
      assert k[..0] == [];
      var i := 0;
      while i < |k|
        invariant 0 <= i <= |k| && Valid() && sent == old(sent) + EncConstants(k[..i])
      {
        DumpConstant(k[i]);
        ConstantsMore(k, i);
        i := i + 1;
      }
      assert k[..i] == k;
    }

    method DumpLocVars(ls: seq<LocVar>)
      requires Valid() && forall i :: 0 <= i < |ls| ==> FitsLocVar(ls[i])
      modifies this
      ensures Valid() && sent == old(sent) + EncLocVars(ls)
    {
      hide EncString, EncInt, FitsStr;
      assert ls[..0] == [];
      var i := 0;
      while i < |ls|
        invariant 0 <= i <= |ls| && Valid() && sent == old(sent) + EncLocVars(ls[..i])
      {
        LocVarsMore(ls, i);
        DumpString(ls[i].varname);
        DumpInt(ls[i].startpc);
        DumpInt(ls[i].endpc);
        i := i + 1;
      }
      assert ls[..i] == ls;
    }

    method DumpStrings(ss: seq<Option<Str>>)
      requires Valid() && forall i :: 0 <= i < |ss| ==> FitsStr(ss[i])
      modifies this
      ensures Valid() && sent == old(sent) + EncStrings(ss)
    {
      hide EncString, FitsStr;
      assert ss[..0] == [];
      var i := 0;
      while i < |ss|
        invariant 0 <= i <= |ss| && Valid() && sent == old(sent) + EncStrings(ss[..i])
      {
        DumpString(ss[i]);
        StringsMore(ss, i);
        i := i + 1;
      }
      assert ss[..i] == ss;
    }

    method DumpDebug(f: Proto)
      requires Valid() && Fits(f)
      modifies this
      ensures Valid() && Fits(Shown(f, strip)) && sent == old(sent) + EncDebug(Shown(f, strip))
    {
      hide Fits, EncInt, EncInts, EncLocVars, EncStrings, FitsLocVar, FitsStr;
      if strip { StrippedFits(f); }
      ghost var g := Shown(f, strip);
      FitsDebug(f);
      FitsDebug(g);
      DumpInt(if strip then 0 else |f.lineinfo|);
      DumpBlock(EncInts(if strip then [] else f.lineinfo));
      DumpInt(if strip then 0 else |f.locvars|);
      DumpLocVars(if strip then [] else f.locvars);
      DumpInt(if strip then 0 else |f.upvalues|);
      DumpStrings(if strip then [] else f.upvalues);
    }

    method DumpHead(f: Proto, parent: Option<Str>)
      requires Valid() && Fits(f)
      modifies this
      ensures Valid() && Fits(Shown(f, strip))
        && sent == old(sent) + EncHead(Shown(f, strip), if strip then None else parent)
    {
      hide Fits, EncInt, EncString, EncWords, EncConstants, FitsConstant;
      if strip { StrippedFits(f); }
      FitsHead(f);
      DumpLines(f, if f.source == parent || strip then None else f.source);
      DumpInt(|f.code|);
      DumpBlock(EncWords(f.code, SIZE_INSTRUCTION));
      DumpInt(|f.k|);
      DumpConstants(f.k);
    }

    method DumpLines(f: Proto, s: Option<Str>)
      requires Valid() && FitsStr(s) && IsCount(f.linedefined) && IsCount(f.lastlinedefined)
      modifies this
      ensures Valid()
      ensures sent == old(sent) + (EncString(s) + EncInt(f.linedefined) + EncInt(f.lastlinedefined) +
        [f.nups, f.numparams, f.is_vararg, f.maxstacksize])
    {
      hide EncInt, EncString, FitsStr;
      DumpString(s);
      DumpInt(f.linedefined);
      DumpInt(f.lastlinedefined);
      DumpBlock([f.nups, f.numparams, f.is_vararg, f.maxstacksize]);
    }

    method DumpFunction(f: Proto, parent: Option<Str>)
      requires Valid() && Fits(f)
      modifies this
      ensures Valid() && Fits(Shown(f, strip))
        && sent == old(sent) + EncFunction(Shown(f, strip), if strip then None else parent)
      decreases f, 0
    {
      hide Fits, EncInt, EncHead, EncDebug, EncFunctions;
      if strip { StrippedFits(f); }
      FitsNested(f);
      DumpHead(f, parent);
      DumpInt(|f.p|);
      DumpFunctions(f.p, f.source);
      DumpDebug(f);
    }

    method DumpFunctions(fs: seq<Proto>, parent: Option<Str>)
      requires Valid() && forall i :: 0 <= i < |fs| ==> Fits(fs[i])
      modifies this
      ensures Valid() && AllFit(ShownAll(fs, strip))
        && sent == old(sent) + EncFunctions(ShownAll(fs, strip), if strip then None else parent)
      decreases fs, 1
    {
      hide Fits, EncFunction, Shown;
      ghost var gs, p := ShownAll(fs, strip), if strip then None else parent;
      ShownFit(fs, strip);
      assert gs[..0] == [];
      var i := 0;
      while i < |fs|
        invariant 0 <= i <= |fs| && Valid() && sent == old(sent) + EncFunctions(gs[..i], p)
      {
        DumpFunction(fs[i], parent);
        FunctionsMore(gs, i, p);
        i := i + 1;
      }
      assert gs[..i] == gs;
    }

    /** luaU_dump */
    method DumpChunk(f: Proto)
      requires Valid() && Fits(f) && sent == []
      modifies this
      ensures Valid() && Fits(Shown(f, strip)) && sent == Dump(Shown(f, strip))
    {
      hide Fits, EncFunction, HEADER;
      DumpBlock(HEADER);
      DumpFunction(f, None);
    }
  }

  ghost predicate AllFit(fs: seq<Proto>) { forall i :: 0 <= i < |fs| ==> Fits(fs[i]) }

  function ShownAll(fs: seq<Proto>, strip: bool): seq<Proto> { if strip then StrippedAll(fs) else fs }

  lemma ShownFit(fs: seq<Proto>, strip: bool)
    requires AllFit(fs)
    ensures |ShownAll(fs, strip)| == |fs| && AllFit(ShownAll(fs, strip)) && forall i :: 0 <= i < |fs| ==>
      ShownAll(fs, strip)[i] == Shown(fs[i], strip)
  {
    if strip {
      forall i | 0 <= i < |fs| ensures Fits(StrippedAll(fs)[i]) && StrippedAll(fs)[i] == Stripped(fs[i]) {
        StrippedAt(fs, i);
        StrippedFits(fs[i]);
      }
    }
  }

  lemma {:induction false} FunctionsMore(fs: seq<Proto>, i: nat, parent: Option<Str>)
    requires i < |fs| && AllFit(fs)
    ensures EncFunctions(fs[..i + 1], parent) == EncFunctions(fs[..i], parent) + EncFunction(fs[i], parent)
    decreases i
  {
    hide EncFunction, Fits;
    if i == 0 {
      assert fs[..1][1..] == [] && fs[..0] == [] && fs[..1][0] == fs[0];
      assert EncFunctions(fs[..1], parent) == EncFunction(fs[0], parent) + EncFunctions([], parent);
    } else {
      FunctionsMore(fs[1..], i - 1, parent);
      assert fs[..i + 1][1..] == fs[1..][..i] && fs[..i][1..] == fs[1..][..i - 1] && fs[1..][i - 1] == fs[i];
      assert fs[..i + 1][0] == fs[0] && fs[..i][0] == fs[0];
      assert EncFunctions(fs[..i + 1], parent) == EncFunction(fs[0], parent) + EncFunctions(fs[1..][..i], parent);
    }
  }

  lemma {:induction false} ConstantsMore(k: seq<Constant>, i: nat)
    requires i < |k| && forall j :: 0 <= j < |k| ==> FitsConstant(k[j])
    ensures EncConstants(k[..i + 1]) == EncConstants(k[..i]) + EncConstant(k[i])
    decreases i
  {
    hide FitsConstant, EncConstant;
    if i == 0 {
      assert k[..1] == [k[0]] && k[..1][1..] == [] && k[..0] == [];
      assert EncConstants(k[..1]) == EncConstant(k[0]) + EncConstants(k[..1][1..]);
    } else {
      ConstantsMore(k[1..], i - 1);
      assert k[..i + 1][1..] == k[1..][..i] && k[..i][1..] == k[1..][..i - 1] && k[1..][i - 1] == k[i];
      assert k[..i + 1][0] == k[0] && k[..i][0] == k[0];
      assert EncConstants(k[..i + 1]) == EncConstant(k[0]) + EncConstants(k[1..][..i]);
    }
  }

  lemma {:induction false} LocVarsMore(ls: seq<LocVar>, i: nat)
    requires i < |ls| && forall j :: 0 <= j < |ls| ==> FitsLocVar(ls[j])
    ensures FitsLocVar(ls[i])
    ensures EncLocVars(ls[..i + 1]) ==
      EncLocVars(ls[..i]) + EncString(ls[i].varname) + EncInt(ls[i].startpc) + EncInt(ls[i].endpc)
    decreases i
  {
    hide EncString, EncInt, FitsStr;
    assert FitsLocVar(ls[0]) && FitsLocVar(ls[i]);
    if i == 0 {
      assert ls[..1][1..] == [] && ls[..0] == [] && ls[..1][0] == ls[0];
      assert EncLocVars(ls[..1]) ==
        EncString(ls[0].varname) + EncInt(ls[0].startpc) + EncInt(ls[0].endpc) + EncLocVars([]);
    } else {
      LocVarsMore(ls[1..], i - 1);
      assert ls[..i + 1][1..] == ls[1..][..i] && ls[..i][1..] == ls[1..][..i - 1] && ls[1..][i - 1] == ls[i];
      assert ls[..i + 1][0] == ls[0] && ls[..i][0] == ls[0];
      assert EncLocVars(ls[..i + 1]) ==
        EncString(ls[0].varname) + EncInt(ls[0].startpc) + EncInt(ls[0].endpc) + EncLocVars(ls[1..][..i]);
    }
  }

  lemma {:induction false} StringsMore(ss: seq<Option<Str>>, i: nat)
    requires i < |ss|
    ensures EncStrings(ss[..i + 1]) == EncStrings(ss[..i]) + EncString(ss[i])
    decreases i
  {
    hide EncString;
    if i == 0 {
      assert ss[..1][1..] == [] && ss[..0] == [] && ss[..1][0] == ss[0];
      assert EncStrings(ss[..1]) == EncString(ss[0]) + EncStrings([]);
    } else {
      StringsMore(ss[1..], i - 1);
      assert ss[..i + 1][1..] == ss[1..][..i] && ss[..i][1..] == ss[1..][..i - 1] && ss[1..][i - 1] == ss[i];
      assert ss[..i + 1][0] == ss[0] && ss[..i][0] == ss[0];
      assert EncStrings(ss[..i + 1]) == EncString(ss[0]) + EncStrings(ss[1..][..i]);
    }
  }
}
