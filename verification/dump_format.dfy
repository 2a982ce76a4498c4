/** Precompiled chunks: what ldump.c writes, what lundump.c makes of it, and that the second
    undoes the first. */
module DumpFormat {
  import opened Shared

  type Byte = x: int | 0 <= x < 256

  type Str = seq<Byte>

  /** Numbers are kept as their 64 bits. */
  datatype Constant = KNil | KBool(b: bool) | KNumber(bits: int) | KString(s: Option<Str>)

  datatype LocVar = LocVar(varname: Option<Str>, startpc: int, endpc: int)

  datatype Proto = Proto(
    source: Option<Str>, linedefined: int, lastlinedefined: int,
    nups: Byte, numparams: Byte, is_vararg: Byte, maxstacksize: Byte,
    code: seq<int>, k: seq<Constant>, p: seq<Proto>,
    lineinfo: seq<int>, locvars: seq<LocVar>, upvalues: seq<Option<Str>>)

  // ------------------------------------------------------------- plain values

  function Pow256(k: nat): nat { if k == 0 then 1 else 256 * Pow256(k - 1) }

  /** k bytes, the lowest first. */
  function Le(n: int, k: nat): seq<Byte>
    requires 0 <= n
  {
    if k == 0 then [] else [n % 256] + Le(n / 256, k - 1)
  }

  function UnLe(b: seq<Byte>): nat { if b == [] then 0 else b[0] + 256 * UnLe(b[1..]) }

  lemma {:induction false} LeRoundTrip(n: int, k: nat)
    requires 0 <= n < Pow256(k)
    ensures |Le(n, k)| == k && UnLe(Le(n, k)) == n
    decreases k
  {
    if k > 0 {
      LeRoundTrip(n / 256, k - 1);
      assert Le(n, k)[1..] == Le(n / 256, k - 1);
    }
  }

  const MAXCCALLS := 200

  /** Sizes of int, size_t, Instruction and lua_Number. */
  const SIZE_INT := 4
  const SIZE_SIZE := 8
  const SIZE_INSTRUCTION := 4
  const SIZE_NUMBER := 8

  predicate IsInt(x: int) { -0x8000_0000 <= x < 0x8000_0000 }
  predicate IsCount(n: int) { 0 <= n < 0x8000_0000 }

  function EncInt(x: int): seq<Byte>
    requires IsInt(x)
  {
    Le(if x < 0 then x + 0x1_0000_0000 else x, SIZE_INT)
  }

  function DecInt(b: seq<Byte>): int {
    var u := UnLe(b);
    if u >= 0x8000_0000 then u - 0x1_0000_0000 else u
  }

  lemma PowersOf256()
    ensures Pow256(4) == 0x1_0000_0000 && Pow256(8) == 0x1_0000_0000_0000_0000
  {
    assert Pow256(2) == 65536;
    assert Pow256(4) == 256 * (256 * Pow256(2));
    assert Pow256(6) == 256 * (256 * Pow256(4));
    assert Pow256(8) == 256 * (256 * Pow256(6));
  }

  lemma IntRoundTrip(x: int)
    requires IsInt(x)
    ensures |EncInt(x)| == SIZE_INT && DecInt(EncInt(x)) == x
  {
    PowersOf256();
    LeRoundTrip(if x < 0 then x + 0x1_0000_0000 else x, SIZE_INT);
  }

  // ------------------------------------------------------------------ reading

  datatype Why = UnexpectedEnd | BadInteger | BadConstant | TooDeep | BadCode | BadHeader

  /** A value and the bytes after it, or an error. */
  datatype Res<T> = Good(v: T, rest: seq<Byte>) | Bad(why: Why) {
    predicate IsFailure() { Bad? }
    function PropagateFailure<U>(): Res<U>
      requires Bad?
    {
      Bad(why)
    }
    function Extract(): (T, seq<Byte>)
      requires Good?
    {
      (v, rest)
    }
  }

  function Block(b: seq<Byte>, n: nat): Res<seq<Byte>> { if |b| < n then Bad(UnexpectedEnd) else Good(b[..n], b[n..]) }

  function ReadByte(b: seq<Byte>): Res<Byte> {
    var (x, b1) :- Block(b, 1);
    Good(x[0], b1)
  }

  /** LoadInt: counts and line numbers are never negative. */
  function ReadInt(b: seq<Byte>): Res<int> {
    var (x, b1) :- Block(b, SIZE_INT);
    if DecInt(x) < 0 then Bad(BadInteger) else Good(DecInt(x), b1)
  }

  function ReadString(b: seq<Byte>): Res<Option<Str>> {
    var (x, b1) :- Block(b, SIZE_SIZE);
    var size := UnLe(x);
    if size == 0 then Good(None, b1) else
    var (s, b2) :- Block(b1, size);
    Good(Some(s[..size - 1]), b2)
  }

  /** n numbers of w bytes. */
  function Words(b: seq<Byte>, w: nat, n: nat): seq<int>
    requires |b| == n * w
    decreases n
  {
    if n == 0 then [] else assert |b| - w == (n - 1) * w; [UnLe(b[..w])] + Words(b[w..], w, n - 1)
  }

  function Ints(b: seq<Byte>, n: nat): seq<int>
    requires |b| == n * SIZE_INT
    decreases n
  {
    if n == 0 then [] else [DecInt(b[..SIZE_INT])] + Ints(b[SIZE_INT..], n - 1)
  }

  function ReadCode(b: seq<Byte>): Res<seq<int>> {
    var (n, b1) :- ReadInt(b);
    var (x, b2) :- Block(b1, n * SIZE_INSTRUCTION);
    Good(Words(x, SIZE_INSTRUCTION, n), b2)
  }

  function ReadConstant(b: seq<Byte>): Res<Constant> {
    var (t, b1) :- ReadByte(b);
    match t
    case 0 => Good(KNil, b1)
    case 1 => (var (x, b2) :- ReadByte(b1); Good(KBool(x != 0), b2))
    case 3 => (var (x, b2) :- Block(b1, SIZE_NUMBER); Good(KNumber(UnLe(x)), b2))
    case 4 => (var (s, b2) :- ReadString(b1); Good(KString(s), b2))
    case _ => Bad(BadConstant)
  }

  function ReadConstants(b: seq<Byte>, n: nat): Res<seq<Constant>> {
    if n == 0 then Good([], b) else
    var (c, b1) :- ReadConstant(b);
    var (cs, b2) :- ReadConstants(b1, n - 1);
    Good([c] + cs, b2)
  }

  function ReadLocVars(b: seq<Byte>, n: nat): Res<seq<LocVar>> {
    if n == 0 then Good([], b) else
    var (s, b1) :- ReadString(b);
    var (x, b2) :- ReadInt(b1);
    var (y, b3) :- ReadInt(b2);
    var (ls, b4) :- ReadLocVars(b3, n - 1);
    Good([LocVar(s, x, y)] + ls, b4)
  }

  function ReadStrings(b: seq<Byte>, n: nat): Res<seq<Option<Str>>> {
    if n == 0 then Good([], b) else
    var (s, b1) :- ReadString(b);
    var (ss, b2) :- ReadStrings(b1, n - 1);
    Good([s] + ss, b2)
  }

  datatype Debug = Debug(lineinfo: seq<int>, locvars: seq<LocVar>, upvalues: seq<Option<Str>>)

  function ReadDebug(b: seq<Byte>): Res<Debug> {
    var (n, b1) :- ReadInt(b);
    var (x, b2) :- Block(b1, n * SIZE_INT);
    var (m, b3) :- ReadInt(b2);
    var (ls, b4) :- ReadLocVars(b3, m);
    var (u, b5) :- ReadInt(b4);
    var (us, b6) :- ReadStrings(b5, u);
    Good(Debug(Ints(x, n), ls, us), b6)
  }

  datatype Head = Head(source: Option<Str>, linedefined: int, lastlinedefined: int, nups: Byte, numparams: Byte,
    is_vararg: Byte, maxstacksize: Byte, code: seq<int>, k: seq<Constant>)

  /** The part of a function before its nested functions. */
  function ReadHead(b: seq<Byte>): Res<Head> {
    var (s, b1) :- ReadString(b);
    var (ld, b2) :- ReadInt(b1);
    var (lld, b3) :- ReadInt(b2);
    var (x, b4) :- Block(b3, 4);
    var (code, b5) :- ReadCode(b4);
    var (n, b6) :- ReadInt(b5);
    var (k, b7) :- ReadConstants(b6, n);
    Good(Head(s, ld, lld, x[0], x[1], x[2], x[3], code, k), b7)
  }

  function Assemble(h: Head, parent: Str, ps: seq<Proto>, d: Debug): Proto {
    Proto(Some(if h.source.Some? then h.source.v else parent), h.linedefined, h.lastlinedefined,
          h.nups, h.numparams, h.is_vararg, h.maxstacksize, h.code, h.k, ps, d.lineinfo, d.locvars, d.upvalues)
  }

  /** LoadFunction; parent is the source name to inherit, depth how many calls deep this is, and
      check the test that luaG_checkcode makes. */
  function ReadFunction(b: seq<Byte>, parent: Str, depth: nat, check: Proto -> bool): Res<Proto>
    decreases if depth < MAXCCALLS then MAXCCALLS - depth else 0, 0
  {
    if depth + 1 > MAXCCALLS then Bad(TooDeep) else
    var (h, b1) :- ReadHead(b);
    var (n, b2) :- ReadInt(b1);
    var (ps, b3) :- ReadFunctions(b2, n, if h.source.Some? then h.source.v else parent, depth + 1, check);
    var (d, b4) :- ReadDebug(b3);
    var f := Assemble(h, parent, ps, d);
    if check(f) then Good(f, b4) else Bad(BadCode)
  }

  function ReadFunctions(b: seq<Byte>, n: nat, parent: Str, depth: nat, check: Proto -> bool): Res<seq<Proto>>
    decreases if depth < MAXCCALLS then MAXCCALLS - depth else 0, n + 1
  {
    if n == 0 then Good([], b) else
    var (f, b1) :- ReadFunction(b, parent, depth, check);
    var (fs, b2) :- ReadFunctions(b1, n - 1, parent, depth, check);
    Good([f] + fs, b2)
  }

  /** luaU_header for this format: signature, version, format, endianness and sizes. */
  const HEADER: seq<Byte> := [27, 76, 117, 97, 0x51, 0, 1, SIZE_INT, SIZE_SIZE, SIZE_INSTRUCTION, SIZE_NUMBER, 0]

  const UNKNOWN: Str := [61, 63]  // "=?"

  function Undump(b: seq<Byte>, depth: nat, check: Proto -> bool): Res<Proto> {
    var (x, b1) :- Block(b, |HEADER|);
    if x != HEADER then Bad(BadHeader) else ReadFunction(b1, UNKNOWN, depth, check)
  }

  // ------------------------------------------------------------------ writing

  /** What can be written: everything fits its field, and what is read back as a count or a
      line number is not negative. */
  predicate FitsStr(s: Option<Str>) { s.Some? ==> |s.v| + 1 < Pow256(SIZE_SIZE) }

  predicate FitsConstant(c: Constant) { (c.KNumber? ==> 0 <= c.bits < Pow256(SIZE_NUMBER))
    && (c.KString? ==> FitsStr(c.s)) }

  predicate FitsLocVar(l: LocVar) { FitsStr(l.varname) && IsCount(l.startpc) && IsCount(l.endpc) }

  predicate Fits(f: Proto)
    decreases f
  {
    && FitsStr(f.source) && IsCount(f.linedefined) && IsCount(f.lastlinedefined)
    && IsCount(|f.code|) && (forall i :: 0 <= i < |f.code| ==> 0 <= f.code[i] < Pow256(SIZE_INSTRUCTION))
    && IsCount(|f.k|) && (forall i :: 0 <= i < |f.k| ==> FitsConstant(f.k[i]))
    && IsCount(|f.p|) && (forall i :: 0 <= i < |f.p| ==> Fits(f.p[i]))
    && IsCount(|f.lineinfo|) && (forall i :: 0 <= i < |f.lineinfo| ==> IsInt(f.lineinfo[i]))
    && IsCount(|f.locvars|) && (forall i :: 0 <= i < |f.locvars| ==> FitsLocVar(f.locvars[i]))
    && IsCount(|f.upvalues|) && (forall i :: 0 <= i < |f.upvalues| ==> FitsStr(f.upvalues[i]))
  }

  function EncString(s: Option<Str>): seq<Byte> {
    if s.None? then Le(0, SIZE_SIZE) else Le(|s.v| + 1, SIZE_SIZE) + s.v + [0]
  }

  function EncWords(ws: seq<int>, w: nat): seq<Byte>
    requires forall i :: 0 <= i < |ws| ==> 0 <= ws[i]
  {
    if ws == [] then [] else Le(ws[0], w) + EncWords(ws[1..], w)
  }

  function EncInts(xs: seq<int>): seq<Byte>
    requires forall i :: 0 <= i < |xs| ==> IsInt(xs[i])
  {
    if xs == [] then [] else EncInt(xs[0]) + EncInts(xs[1..])
  }

  function EncConstant(c: Constant): seq<Byte>
    requires FitsConstant(c)
  {
    match c
    case KNil => [0]
    case KBool(b) => [1, if b then 1 else 0]
    case KNumber(bits) => [3] + Le(bits, SIZE_NUMBER)
    case KString(s) => [4] + EncString(s)
  }

  function EncConstants(cs: seq<Constant>): seq<Byte>
    requires forall i :: 0 <= i < |cs| ==> FitsConstant(cs[i])
  {
    if cs == [] then [] else EncConstant(cs[0]) + EncConstants(cs[1..])
  }

  function EncLocVars(ls: seq<LocVar>): seq<Byte>
    requires forall i :: 0 <= i < |ls| ==> FitsLocVar(ls[i])
  {
    if ls == [] then [] else
    assert FitsLocVar(ls[0]);
    EncString(ls[0].varname) + EncInt(ls[0].startpc) + EncInt(ls[0].endpc) + EncLocVars(ls[1..])
  }

  function EncStrings(ss: seq<Option<Str>>): seq<Byte> {
    if ss == [] then [] else EncString(ss[0]) + EncStrings(ss[1..])
  }

  function EncHead(f: Proto, parent: Option<Str>): seq<Byte>
    requires Fits(f)
  {
    EncString(if f.source == parent then None else f.source) + EncInt(f.linedefined) + EncInt(f.lastlinedefined)
    + [f.nups, f.numparams, f.is_vararg, f.maxstacksize]
    + EncInt(|f.code|) + EncWords(f.code, SIZE_INSTRUCTION) + EncInt(|f.k|) + EncConstants(f.k)
  }

  function EncDebug(f: Proto): seq<Byte>
    requires Fits(f)
  {
    EncInt(|f.lineinfo|) + EncInts(f.lineinfo) + EncInt(|f.locvars|) + EncLocVars(f.locvars) + EncInt(|f.upvalues|)
    + EncStrings(f.upvalues)
  }

  /** DumpFunction; a source name equal to that of the enclosing function is not written. */
  function EncFunction(f: Proto, parent: Option<Str>): seq<Byte>
    requires Fits(f)
    decreases f, 0
  {
    EncHead(f, parent) + EncInt(|f.p|) + EncFunctions(f.p, f.source) + EncDebug(f)
  }

  function EncFunctions(fs: seq<Proto>, parent: Option<Str>): seq<Byte>
    requires forall i :: 0 <= i < |fs| ==> Fits(fs[i])
    decreases fs, 1
  {
    if fs == [] then [] else EncFunction(fs[0], parent) + EncFunctions(fs[1..], parent)
  }

  /** luaU_dump without stripping */
  function Dump(f: Proto): seq<Byte>
    requires Fits(f)
  {
    HEADER + EncFunction(f, None)
  }

  /** The bytes that are written: a header, integers of four bytes with the low one first, and
      strings behind their size, of eight bytes, which counts the zero at their end. */
  lemma Layout(f: Proto, x: int, s: Str)
    requires Fits(f) && 0 <= x < 0x8000_0000 && |s| + 1 == x
    ensures |Dump(f)| >= 12 && Dump(f)[..12] == [0x1B, 0x4C, 0x75, 0x61, 0x51, 0x00, 0x01, 4, 8, 4, 8, 0]
    ensures EncInt(x) == [x % 256, x / 256 % 256, x / 65536 % 256, x / 16777216]
    ensures EncString(Some(s)) == EncInt(x) + [0, 0, 0, 0] + s + [0]
    ensures EncString(None) == [0, 0, 0, 0, 0, 0, 0, 0]
    ensures EncConstant(KNil) == [0] && EncConstant(KBool(false)) == [1, 0] && EncConstant(KBool(true)) == [1, 1]
    ensures FitsStr(Some(s)) ==> EncConstant(KString(Some(s))) == [4] + EncString(Some(s))
    ensures x < Pow256(8) ==> EncConstant(KNumber(x)) == [3] + EncInt(x) + [0, 0, 0, 0]
  {
    hide Fits, Le, EncFunction, Pow256;
    PowersOf256();
    FourBytes(x);
    ZeroBytes(8);
    LeLonger(x, 4, 4);
    Zeros();
    assert Dump(f)[..12] == HEADER;
  }

  lemma Zeros()
    ensures var z, y: seq<Byte> := seq(8, _ => 0), seq(4, _ => 0);
      z == [0, 0, 0, 0, 0, 0, 0, 0] && y == [0, 0, 0, 0]
  {
  }

  lemma {:induction false} ZeroBytes(k: nat)
    ensures Le(0, k) == seq(k, _ => 0)
  {
    if k > 0 {
      ZeroBytes(k - 1);
    }
  }

  /** Longer numbers have zeros at their end. */
  lemma {:induction false} LeLonger(n: nat, k: nat, m: nat)
    requires n < Pow256(k)
    ensures Le(n, k + m) == Le(n, k) + seq(m, _ => 0)
    decreases k
  {
    if k == 0 {
      ZeroBytes(m);
      assert Le(n, k + m) == Le(0, m);
    } else {
      LeLonger(n / 256, k - 1, m);
      var z: seq<Byte> := seq(m, _ => 0);
      assert [n % 256] + (Le(n / 256, k - 1) + z) == [n % 256] + Le(n / 256, k - 1) + z;
    }
  }

  lemma FourBytes(x: int)
    requires 0 <= x < 0x1_0000_0000
    ensures Le(x, 4) == [x % 256, x / 256 % 256, x / 65536 % 256, x / 16777216]
  {
    var a, b, c := x / 256, x / 256 / 256, x / 256 / 256 / 256;
    assert b == x / 65536 && c == x / 16777216 && c < 256;
    assert Le(c, 1) == [c] + Le(c / 256, 0) == [c];
    assert Le(b, 2) == [b % 256] + Le(c, 1);
    assert Le(a, 3) == [a % 256] + Le(b, 2);
    assert Le(x, 4) == [x % 256] + Le(a, 3);
  }

  /** A function whose source has no name gets that of the function around it, and the main
      function the name =?; nesting may be 199 functions deep. */
  lemma Limits(b: seq<Byte>, parent: Str, depth: nat, check: Proto -> bool)
    ensures depth >= 200 ==> ReadFunction(b, parent, depth, check) == Bad(TooDeep)
    ensures var r := Undump(b, depth, check);
      if |b| < 12 then r == Bad(UnexpectedEnd)
      else if b[..12] != [0x1B, 0x4C, 0x75, 0x61, 0x51, 0x00, 0x01, 4, 8, 4, 8, 0] then r == Bad(BadHeader)
      else r == ReadFunction(b[12..], [61, 63], depth, check)
  {
    hide ReadHead;
  }

  // --------------------------------------------------------------- round trip

  lemma BlockOf(a: seq<Byte>, t: seq<Byte>)
    ensures Block(a + t, |a|) == Good(a, t)
  {
  }

  lemma ReadIntOf(n: int, t: seq<Byte>)
    requires IsCount(n)
    ensures ReadInt(EncInt(n) + t) == Good(n, t)
  {
    IntRoundTrip(n);
    BlockOf(EncInt(n), t);
  }

  lemma ReadStringOf(s: Option<Str>, t: seq<Byte>)
    requires FitsStr(s)
    ensures ReadString(EncString(s) + t) == Good(s, t)
  {
    PowersOf256();
    var size := if s.None? then 0 else |s.v| + 1;
    var x, y := Le(size, SIZE_SIZE), if s.None? then [] else s.v + [0];
    LeRoundTrip(size, SIZE_SIZE);
    assert EncString(s) + t == x + (y + t);
    BlockOf(x, y + t);
    if s.Some? {
      BlockOf(y, t);
      assert y[..size - 1] == s.v;
    }
  }

  lemma {:induction false} WordsLength(ws: seq<int>, w: nat)
    requires forall i :: 0 <= i < |ws| ==> 0 <= ws[i] < Pow256(w)
    ensures |EncWords(ws, w)| == |ws| * w
  {
    if ws != [] {
      LeRoundTrip(ws[0], w);
      hide Le, UnLe, Pow256;
      WordsLength(ws[1..], w);
      OneWordMore(|ws|, w);
    }
  }

  lemma {:induction false} WordsOf(ws: seq<int>, w: nat)
    requires forall i :: 0 <= i < |ws| ==> 0 <= ws[i] < Pow256(w)
    ensures |EncWords(ws, w)| == |ws| * w && Words(EncWords(ws, w), w, |ws|) == ws
  {
    hide Le, UnLe, Pow256;
    WordsLength(ws, w);
    if ws != [] {
      LeRoundTrip(ws[0], w);
      WordsOf(ws[1..], w);
      OneWordMore(|ws|, w);
      var b, rest := EncWords(ws, w), EncWords(ws[1..], w);
      assert b == Le(ws[0], w) + rest;
      assert b[..w] == Le(ws[0], w) && b[w..] == rest;
      assert ws == [ws[0]] + ws[1..];
    }
  }

  lemma OneWordMore(n: int, w: int)
    ensures n * w == w + (n - 1) * w
  {
  }

  lemma {:induction false} IntsOf(xs: seq<int>)
    requires forall i :: 0 <= i < |xs| ==> IsInt(xs[i])
    ensures |EncInts(xs)| == |xs| * SIZE_INT && Ints(EncInts(xs), |xs|) == xs
  {
    if xs != [] {
      IntRoundTrip(xs[0]);
      IntsOf(xs[1..]);
      assert EncInts(xs)[..SIZE_INT] == EncInt(xs[0]) && EncInts(xs)[SIZE_INT..] == EncInts(xs[1..]);
    }
  }

  lemma ReadCodeOf(ws: seq<int>, t: seq<Byte>)
    requires IsCount(|ws|) && forall i :: 0 <= i < |ws| ==> 0 <= ws[i] < Pow256(SIZE_INSTRUCTION)
    ensures ReadCode(EncInt(|ws|) + EncWords(ws, SIZE_INSTRUCTION) + t) == Good(ws, t)
  {
    hide Le, EncInt, EncWords, Pow256, UnLe, DecInt, Words, Block, ReadInt;
    var x := EncWords(ws, SIZE_INSTRUCTION);
    assert EncInt(|ws|) + x + t == EncInt(|ws|) + (x + t);
    ReadIntOf(|ws|, x + t);
    WordsOf(ws, SIZE_INSTRUCTION);
    BlockOf(x, t);
  }

  lemma ReadConstantOf(c: Constant, t: seq<Byte>)
    requires FitsConstant(c)
    ensures ReadConstant(EncConstant(c) + t) == Good(c, t)
  {
    hide Le, UnLe, ReadString, EncString, Pow256, FitsStr;
    var e := EncConstant(c);
    assert e + t == [e[0]] + (e[1..] + t);
    BlockOf([e[0]], e[1..] + t);
    match c
    case KNil =>
    case KBool(b) => BlockOf([if b then 1 else 0], t);
    case KNumber(bits) =>
      LeRoundTrip(bits, SIZE_NUMBER);
      assert e[1..] == Le(bits, SIZE_NUMBER);
      BlockOf(Le(bits, SIZE_NUMBER), t);
    case KString(s) =>
      assert e[1..] == EncString(s);
      ReadStringOf(s, t);
  }

  lemma {:induction false} ReadConstantsOf(cs: seq<Constant>, t: seq<Byte>)
    requires forall i :: 0 <= i < |cs| ==> FitsConstant(cs[i])
    ensures ReadConstants(EncConstants(cs) + t, |cs|) == Good(cs, t)
  {
    hide Le, EncConstant, Pow256, UnLe, Block, ReadConstant;
    if cs != [] {
      var rest := EncConstants(cs[1..]);
      assert EncConstants(cs) + t == EncConstant(cs[0]) + (rest + t);
      ReadConstantOf(cs[0], rest + t);
      ReadConstantsOf(cs[1..], t);
      assert cs == [cs[0]] + cs[1..];
    } else {
      assert EncConstants(cs) + t == t;
    }
  }

  lemma {:induction false} ReadLocVarsOf(ls: seq<LocVar>, t: seq<Byte>)
    requires forall i :: 0 <= i < |ls| ==> FitsLocVar(ls[i])
    ensures ReadLocVars(EncLocVars(ls) + t, |ls|) == Good(ls, t)
  {
    hide Le, EncInt, EncString, Pow256, UnLe, DecInt, Block, ReadString, ReadInt;
    if ls != [] {
      assert FitsLocVar(ls[0]);
      var l, rest := ls[0], EncLocVars(ls[1..]);
      assert EncLocVars(ls) + t == EncString(l.varname) + (EncInt(l.startpc) + (EncInt(l.endpc) + (rest + t)));
      ReadStringOf(l.varname, EncInt(l.startpc) + (EncInt(l.endpc) + (rest + t)));
      ReadIntOf(l.startpc, EncInt(l.endpc) + (rest + t));
      ReadIntOf(l.endpc, rest + t);
      ReadLocVarsOf(ls[1..], t);
      assert ls == [l] + ls[1..];
    } else {
      assert EncLocVars(ls) + t == t;
    }
  }

  lemma {:induction false} ReadStringsOf(ss: seq<Option<Str>>, t: seq<Byte>)
    requires forall i :: 0 <= i < |ss| ==> FitsStr(ss[i])
    ensures ReadStrings(EncStrings(ss) + t, |ss|) == Good(ss, t)
  {
    hide Le, EncString, Pow256, UnLe, Block, ReadString;
    if ss != [] {
      var rest := EncStrings(ss[1..]);
      assert EncStrings(ss) + t == EncString(ss[0]) + (rest + t);
      ReadStringOf(ss[0], rest + t);
      ReadStringsOf(ss[1..], t);
      assert ss == [ss[0]] + ss[1..];
    } else {
      assert EncStrings(ss) + t == t;
    }
  }

  lemma FitsDebug(f: Proto)
    requires Fits(f)
    ensures IsCount(|f.lineinfo|) && (forall i :: 0 <= i < |f.lineinfo| ==> IsInt(f.lineinfo[i]))
    ensures IsCount(|f.locvars|) && (forall i :: 0 <= i < |f.locvars| ==> FitsLocVar(f.locvars[i]))
    ensures IsCount(|f.upvalues|) && (forall i :: 0 <= i < |f.upvalues| ==> FitsStr(f.upvalues[i]))
  {
  }

  lemma FitsHead(f: Proto)
    requires Fits(f)
    ensures FitsStr(f.source) && IsCount(f.linedefined) && IsCount(f.lastlinedefined)
    ensures IsCount(|f.code|) && (forall i :: 0 <= i < |f.code| ==> 0 <= f.code[i] < Pow256(SIZE_INSTRUCTION))
    ensures IsCount(|f.k|) && (forall i :: 0 <= i < |f.k| ==> FitsConstant(f.k[i]))
  {
  }

  lemma ReadDebugOf(f: Proto, t: seq<Byte>)
    requires Fits(f)
    ensures ReadDebug(EncDebug(f) + t) == Good(Debug(f.lineinfo, f.locvars, f.upvalues), t)
  {
    hide Fits, Le, EncInt, EncInts, EncLocVars, EncStrings, Pow256, UnLe, DecInt, Ints, Block, ReadInt, ReadLocVars,
      ReadStrings, FitsLocVar, FitsStr;
    FitsDebug(f);
    var i, ls, us := f.lineinfo, f.locvars, f.upvalues;
    var t5 := EncStrings(us) + t;
    var t4 := EncInt(|us|) + t5;
    var t3 := EncLocVars(ls) + t4;
    var t2 := EncInt(|ls|) + t3;
    var t1 := EncInts(i) + t2;
    assert EncDebug(f) + t == EncInt(|i|) + t1;
    ReadIntOf(|i|, t1);
    IntsOf(i);
    BlockOf(EncInts(i), t2);
    ReadIntOf(|ls|, t3);
    ReadLocVarsOf(ls, t4);
    ReadIntOf(|us|, t5);
    ReadStringsOf(us, t);
  }

  function HeadOf(f: Proto, parent: Option<Str>): Head {
    Head(if f.source == parent then None
      else f.source, f.linedefined, f.lastlinedefined, f.nups, f.numparams, f.is_vararg, f.maxstacksize, f.code, f.k)
  }

  lemma ReadHeadOf(f: Proto, parent: Option<Str>, t: seq<Byte>)
    requires Fits(f)
    ensures ReadHead(EncHead(f, parent) + t) == Good(HeadOf(f, parent), t)
  {
    hide Fits, Le, EncInt, EncString, EncWords, EncConstants, Pow256, UnLe, DecInt, Words, Block, ReadInt, ReadString,
      ReadCode, ReadConstants, FitsConstant;
    FitsHead(f);
    var s := if f.source == parent then None else f.source;
    var x := [f.nups, f.numparams, f.is_vararg, f.maxstacksize];
    var t6 := EncConstants(f.k) + t;
    var t5 := EncInt(|f.k|) + t6;
    var t4 := EncInt(|f.code|) + EncWords(f.code, SIZE_INSTRUCTION) + t5;
    var t3 := x + t4;
    var t2 := EncInt(f.lastlinedefined) + t3;
    var t1 := EncInt(f.linedefined) + t2;
    assert EncHead(f, parent) + t == EncString(s) + t1;
    ReadStringOf(s, t1);
    ReadIntOf(f.linedefined, t2);
    ReadIntOf(f.lastlinedefined, t3);
    BlockOf(x, t4);
    ReadCodeOf(f.code, t5);
    ReadIntOf(|f.k|, t6);
    ReadConstantsOf(f.k, t);
  }

  /** Missing source names are those of the enclosing functions. */
  function Inherit(f: Proto, parent: Str): Proto
    decreases f, 0
  {
    var s := if f.source.Some? then f.source.v else parent;
    f.(source := Some(s), p := InheritAll(f.p, s))
  }

  function InheritAll(fs: seq<Proto>, parent: Str): seq<Proto>
    decreases fs, 1
  {
    if fs == [] then [] else [Inherit(fs[0], parent)] + InheritAll(fs[1..], parent)
  }

  /** All functions pass the code check, and are nested at most limit deep. */
  predicate Loadable(f: Proto, parent: Str, limit: int, check: Proto -> bool)
    decreases f, 0
  {
    limit > 0 && check(Inherit(f, parent)) && AllLoadable(f.p, if f.source.Some? then f.source.v
      else parent, limit - 1, check)
  }

  predicate AllLoadable(fs: seq<Proto>, parent: Str, limit: int, check: Proto -> bool)
    decreases fs, 1
  {
    fs == [] || (Loadable(fs[0], parent, limit, check) && AllLoadable(fs[1..], parent, limit, check))
  }

  lemma FitsNested(f: Proto)
    requires Fits(f)
    ensures IsCount(|f.p|) && forall i :: 0 <= i < |f.p| ==> Fits(f.p[i])
  {
  }

  /** outer is the source name of the enclosing function, parent the one it was loaded with. */
  lemma {:induction false} ReadFunctionOf(f: Proto, outer: Option<Str>, parent: Str, depth: nat, check: Proto -> bool,
      t: seq<Byte>)
    requires Fits(f) && (outer.Some? ==> outer.v == parent) && Loadable(f, parent, MAXCCALLS - depth, check)
    ensures ReadFunction(EncFunction(f, outer) + t, parent, depth, check) == Good(Inherit(f, parent), t)
    decreases f, 0
  {
    hide Fits, EncInt, EncHead, EncDebug, EncFunctions, ReadInt, ReadHead, ReadDebug, ReadFunctions, AllLoadable,
      InheritAll;
    FitsNested(f);
    var s := if f.source.Some? then f.source.v else parent;
    var t3 := EncDebug(f) + t;
    var t2 := EncFunctions(f.p, f.source) + t3;
    var t1 := EncInt(|f.p|) + t2;
    assert EncFunction(f, outer) + t == EncHead(f, outer) + t1;
    ReadHeadOf(f, outer, t1);
    ReadIntOf(|f.p|, t2);
    ReadFunctionsOf(f.p, f.source, s, depth + 1, check, t3);
    ReadDebugOf(f, t);
    var d := Debug(f.lineinfo, f.locvars, f.upvalues);
    assert Assemble(HeadOf(f, outer), parent, InheritAll(f.p, s), d) == Inherit(f, parent);
  }

  lemma {:induction false} ReadFunctionsOf(fs: seq<Proto>, outer: Option<Str>, parent: Str, depth: nat,
      check: Proto -> bool, t: seq<Byte>)
    requires (forall i :: 0 <= i < |fs| ==> Fits(fs[i])) && (outer.Some? ==> outer.v == parent)
      && AllLoadable(fs, parent, MAXCCALLS - depth, check)
    ensures ReadFunctions(EncFunctions(fs, outer) + t, |fs|, parent, depth, check) == Good(InheritAll(fs, parent), t)
    decreases fs, 1
  {
    hide Fits, EncFunction, ReadFunction, Loadable, Inherit;
    if fs != [] {
      var rest := EncFunctions(fs[1..], outer);
      assert EncFunctions(fs, outer) + t == EncFunction(fs[0], outer) + (rest + t);
      ReadFunctionOf(fs[0], outer, parent, depth, check, rest + t);
      ReadFunctionsOf(fs[1..], outer, parent, depth, check, t);
    } else {
      assert EncFunctions(fs, outer) + t == t;
    }
  }

  /** A dump, followed by anything, is undumped to the same tree with missing source names
      filled in. */
  lemma RoundTrip(f: Proto, depth: nat, check: Proto -> bool, t: seq<Byte>)
    requires Fits(f) && Loadable(f, UNKNOWN, MAXCCALLS - depth, check)
    ensures Undump(Dump(f) + t, depth, check) == Good(Inherit(f, UNKNOWN), t)
  {
    hide Fits, Loadable, EncFunction, ReadFunction, Block, HEADER, Inherit;
    assert Dump(f) + t == HEADER + (EncFunction(f, None) + t);
    BlockOf(HEADER, EncFunction(f, None) + t);
    ReadFunctionOf(f, None, UNKNOWN, depth, check, t);
  }

  /** All functions have source names. */
  predicate Sourced(f: Proto)
    decreases f, 0
  {
    f.source.Some? && AllSourced(f.p)
  }

  predicate AllSourced(fs: seq<Proto>)
    decreases fs, 1
  {
    fs == [] || (Sourced(fs[0]) && AllSourced(fs[1..]))
  }

  /** The tree comes back unchanged if and only if all its functions have source names. */
  lemma {:induction false} InheritNothing(f: Proto, parent: Str)
    ensures Inherit(f, parent) == f <==> Sourced(f)
    decreases f, 0
  {
    var s := if f.source.Some? then f.source.v else parent;
    InheritNothingAll(f.p, s);
    assert Inherit(f, parent).p == InheritAll(f.p, s) && Inherit(f, parent).source == Some(s);
  }

  lemma {:induction false} InheritNothingAll(fs: seq<Proto>, parent: Str)
    ensures InheritAll(fs, parent) == fs <==> AllSourced(fs)
    decreases fs, 1
  {
    if fs != [] {
      InheritNothing(fs[0], parent);
      InheritNothingAll(fs[1..], parent);
      var r := InheritAll(fs, parent);
      assert r[0] == Inherit(fs[0], parent) && r[1..] == InheritAll(fs[1..], parent);
      assert fs == [fs[0]] + fs[1..];
    }
  }
}