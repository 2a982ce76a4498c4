/** Loading a chunk from a stream that comes in blocks (lzio.c, lundump.c). */
module DumpLoad {
  import opened Shared
  import opened DumpFormat

  /** The bytes that a reader will deliver: an empty block is the end. */
  function Flat(blocks: seq<seq<Byte>>): seq<Byte> {
    if blocks == [] || blocks[0] == [] then [] else blocks[0] + Flat(blocks[1..])
  }

  class Zio {
    var blocks: seq<seq<Byte>>
    var buf: seq<Byte>
    var p: nat

    ghost predicate Valid()
      reads this
    {
      p <= |buf|
    }

    ghost function Rest(): seq<Byte>
      requires Valid()
      reads this
    {
      buf[p..] + Flat(blocks)
    }

    constructor (bs: seq<seq<Byte>>)
      ensures Valid() && Rest() == Flat(bs)
    {
      blocks, buf, p := bs, [], 0;
    }

    /** luaZ_fill: the first byte of the next block is taken; false at the end of the stream. */
    method Fill() returns (c: int, ok: bool)
      requires Valid() && p == |buf|
      modifies this
      ensures Valid() && ok == (old(Rest()) != [])
      ensures ok ==> p > 0 && c == buf[p - 1] && [buf[p - 1]] + Rest() == old(Rest())
      ensures !ok ==> p == |buf|
    {
      if blocks == [] || blocks[0] == [] {
        blocks := if blocks == [] then [] else blocks[1..];
        return -1, false;
      }
      buf, p := blocks[0], 1;
      blocks := blocks[1..];
      c, ok := buf[0], true;
    }

    /** luaZ_lookahead */
    method Lookahead() returns (ok: bool)
      requires Valid()
      modifies this
      ensures Valid() && ok == (old(Rest()) != [])
      ensures ok ==> Rest() == old(Rest()) && p < |buf|
    {
      if p == |buf| {
        var c;
        c, ok := Fill();
        if !ok {
          return;
        }
        p := p - 1;
        assert buf[p..] == [buf[p]] + buf[p + 1..];
      }
      ok := true;
    }

    /** As many of n bytes as there are in the current block. */
    method TakeSome(n: nat) returns (b: seq<Byte>)
      requires Valid() && p < |buf| && n > 0
      modifies this`p
      ensures Valid() && 0 < |b| <= n && old(Rest()) == b + Rest()
    {
      hide Flat;
      var m := if n <= |buf| - p then n else |buf| - p;
      b := buf[p..p + m];
      Split(buf, p, m, Flat(blocks));
      p := p + m;
    }

    /** luaZ_read: the next n bytes, or how many are missing. */
    method Read(n0: nat) returns (b: seq<Byte>, missing: nat)
      requires Valid()
      modifies this
      ensures Valid() && (missing == 0 <==> n0 <= |old(Rest())|)
      ensures missing == 0 ==> b == old(Rest())[..n0] && Rest() == old(Rest())[n0..]
      ensures missing != 0 ==> b == old(Rest()) && missing == n0 - |b|
    {
      var n := n0;
      ghost var all := Rest();
      b := [];
      hide Flat;
      while n > 0
        invariant Valid() && 0 <= n <= n0 && |b| == n0 - n && all == b + Rest()
        decreases n
      {
        var ok := Lookahead();
        if !ok {
          assert all == b;
          return b, n;
        }
        ghost var rest := Rest();
        var chunk := TakeSome(n);
        assert b + rest == b + chunk + Rest();
        b, n := b + chunk, n - |chunk|;
      }
      missing := 0;
      Cut(all, b, Rest());
    }
  }

  lemma Cut(all: seq<Byte>, b: seq<Byte>, rest: seq<Byte>)
    requires all == b + rest
    ensures all[..|b|] == b && all[|b|..] == rest
  {
  }

  lemma Split(buf: seq<Byte>, p: nat, m: nat, rest: seq<Byte>)
    requires p + m <= |buf|
    ensures buf[p..] + rest == buf[p..p + m] + (buf[p + m..] + rest)
  {
  }

  /** The outcome of reading a sequence some of whose elements have been read. */
  function Prefixed<T>(acc: seq<T>, r: Res<seq<T>>): Res<seq<T>> { if r.Bad? then r else Good(acc + r.v, r.rest) }

  lemma PrefixedNone<T>(r: Res<seq<T>>)
    ensures Prefixed([], r) == r
  {
    if r.Good? {
      assert [] + r.v == r.v;
    }
  }

  lemma PrefixedMore<T>(acc: seq<T>, x: T, r: Res<seq<T>>)
    ensures Prefixed(acc, Prefixed([x], r)) == Prefixed(acc + [x], r)
  {
    if r.Good? {
      assert acc + ([x] + r.v) == acc + [x] + r.v;
    }
  }

  lemma PrefixedAll<T>(acc: seq<T>, rest: seq<Byte>)
    ensures Prefixed(acc, Good([], rest)) == Good(acc, rest)
  {
    assert acc + [] == acc;
  }

  /** A method's outcome and the rest of the stream are those of the reader function. */
  ghost predicate Is<T(!new)>(z: Zio, r: Res<T>, v: T, why: Option<Why>)
    requires z.Valid()
    reads z
  {
    if why.Some? then r == Bad(why.v) else r == Good(v, z.Rest())
  }

  class LoadState {
    const z: Zio
    var nCcalls: nat
    const check: Proto -> bool

    constructor (stream: Zio, calls: nat, ok: Proto -> bool)
      ensures z == stream && nCcalls == calls && check == ok
    {
      z, nCcalls, check := stream, calls, ok;
    }

    method LoadBlock(n: nat) returns (b: seq<Byte>, e: Option<Why>)
      requires z.Valid()
      modifies z
      ensures z.Valid() && Is(z, Block(old(z.Rest()), n), b, e) && (e.None? ==> |b| == n)
    {
      var missing;
      b, missing := z.Read(n);
      e := if missing != 0 then Some(UnexpectedEnd) else None;
    }

    method LoadByte() returns (x: Byte, e: Option<Why>)
      requires z.Valid()
      modifies z
      ensures z.Valid() && Is(z, ReadByte(old(z.Rest())), x, e)
    {
      var b;
      b, e := LoadBlock(1);
      x := if e.None? then b[0] else 0;
    }

    method LoadInt() returns (x: int, e: Option<Why>)
      requires z.Valid()
      modifies z
      ensures z.Valid() && Is(z, ReadInt(old(z.Rest())), x, e) && (e.None? ==> x >= 0)
    {
      var b;
      b, e := LoadBlock(SIZE_INT);
      x := DecInt(b);
      if e.None? && x < 0 {
        e := Some(BadInteger);
      }
    }

    method LoadString() returns (s: Option<Str>, e: Option<Why>)
      requires z.Valid()
      modifies z
      ensures z.Valid() && Is(z, ReadString(old(z.Rest())), s, e)
    {
      s := None;
      var x;
      x, e := LoadBlock(SIZE_SIZE);
      if e.Some? {
        return;
      }
      var size := UnLe(x);
      if size != 0 {
        var b;
        b, e := LoadBlock(size);
        if e.None? {
          s := Some(b[..size - 1]);
        }
      }
    }

    method LoadCode() returns (ws: seq<int>, e: Option<Why>)
      requires z.Valid()
      modifies z
      ensures z.Valid() && Is(z, ReadCode(old(z.Rest())), ws, e)
    {
      ws := [];
      var n, x;
      n, e := LoadInt();
      if e.Some? {
        return;
      }
      x, e := LoadBlock(n * SIZE_INSTRUCTION);
      if e.None? {
        ws := Words(x, SIZE_INSTRUCTION, n);
      }
    }

    method LoadConstant() returns (c: Constant, e: Option<Why>)
      requires z.Valid()
      modifies z
      ensures z.Valid() && Is(z, ReadConstant(old(z.Rest())), c, e)
    {
      hide ReadString, UnLe, Block;
      c := KNil;
      var t;
      t, e := LoadByte();
      if e.Some? {
        return;
      }
      if t == 0 {
      } else if t == 1 {
        var x;
        x, e := LoadByte();
        c := KBool(x != 0);
      } else if t == 3 {
        var x;
        x, e := LoadBlock(SIZE_NUMBER);
        c := KNumber(UnLe(x));
      } else if t == 4 {
        var s;
        s, e := LoadString();
        c := KString(s);
      } else {
        e := Some(BadConstant);
      }
    }

    method LoadConstants(n: nat) returns (k: seq<Constant>, e: Option<Why>)
      requires z.Valid()
      modifies z
      ensures z.Valid() && Is(z, ReadConstants(old(z.Rest()), n), k, e)
    {
      hide ReadConstant;
      k, e := [], None;
      var i := 0;
      PrefixedNone(ReadConstants(z.Rest(), n));
      while i < n
        invariant 0 <= i <= n && z.Valid() && e.None?
        invariant ReadConstants(old(z.Rest()), n) == Prefixed(k, ReadConstants(z.Rest(), n - i))
      {
        var c;
        c, e := LoadConstant();
        if e.Some? {
          return;
        }
        PrefixedMore(k, c, ReadConstants(z.Rest(), n - i - 1));
        k := k + [c];
        i := i + 1;
      }
      PrefixedAll(k, z.Rest());
    }

    method LoadLocVars(n: nat) returns (ls: seq<LocVar>, e: Option<Why>)
      requires z.Valid()
      modifies z
      ensures z.Valid() && Is(z, ReadLocVars(old(z.Rest()), n), ls, e)
    {
      hide ReadString, ReadInt;
      ls, e := [], None;
      var i := 0;
      PrefixedNone(ReadLocVars(z.Rest(), n));
      while i < n
        invariant 0 <= i <= n && z.Valid() && e.None?
        invariant ReadLocVars(old(z.Rest()), n) == Prefixed(ls, ReadLocVars(z.Rest(), n - i))
      {
        var s, x, y;
        s, e := LoadString();
        if e.Some? {
          return;
        }
        x, e := LoadInt();
        if e.Some? {
          return;
        }
        y, e := LoadInt();
        if e.Some? {
          return;
        }
        PrefixedMore(ls, LocVar(s, x, y), ReadLocVars(z.Rest(), n - i - 1));
        ls := ls + [LocVar(s, x, y)];
        i := i + 1;
      }
      PrefixedAll(ls, z.Rest());
    }

    method LoadStrings(n: nat) returns (ss: seq<Option<Str>>, e: Option<Why>)
      requires z.Valid()
      modifies z
      ensures z.Valid() && Is(z, ReadStrings(old(z.Rest()), n), ss, e)
    {
      hide ReadString;
      ss, e := [], None;
      var i := 0;
      PrefixedNone(ReadStrings(z.Rest(), n));
      while i < n
        invariant 0 <= i <= n && z.Valid() && e.None?
        invariant ReadStrings(old(z.Rest()), n) == Prefixed(ss, ReadStrings(z.Rest(), n - i))
      {
        var s;
        s, e := LoadString();
        if e.Some? {
          return;
        }
        PrefixedMore(ss, s, ReadStrings(z.Rest(), n - i - 1));
        ss := ss + [s];
        i := i + 1;
      }
      PrefixedAll(ss, z.Rest());
    }

    method LoadDebug() returns (d: Debug, e: Option<Why>)
      requires z.Valid()
      modifies z
      ensures z.Valid() && Is(z, ReadDebug(old(z.Rest())), d, e)
    {
      hide ReadInt, Block, ReadLocVars, ReadStrings, Ints;
      d := Debug([], [], []);
      var n, x, m, ls, u, us;
      n, e := LoadInt();
      if e.Some? {
        return;
      }
      x, e := LoadBlock(n * SIZE_INT);
      if e.Some? {
        return;
      }
      m, e := LoadInt();
      if e.Some? {
        return;
      }
      ls, e := LoadLocVars(m);
      if e.Some? {
        return;
      }
      u, e := LoadInt();
      if e.Some? {
        return;
      }
      us, e := LoadStrings(u);
      d := Debug(Ints(x, n), ls, us);
    }

    method LoadHead() returns (h: Head, e: Option<Why>)
      requires z.Valid()
      modifies z
      ensures z.Valid() && Is(z, ReadHead(old(z.Rest())), h, e)
    {
      hide ReadInt, ReadString, Block, ReadCode, ReadConstants;
      h := Head(None, 0, 0, 0, 0, 0, 0, [], []);
      var s, ld, lld, x, code, n, k;
      s, e := LoadString();
      if e.Some? {
        return;
      }
      ld, e := LoadInt();
      if e.Some? {
        return;
      }
      lld, e := LoadInt();
      if e.Some? {
        return;
      }
      x, e := LoadBlock(4);
      if e.Some? {
        return;
      }
      code, e := LoadCode();
      if e.Some? {
        return;
      }
      n, e := LoadInt();
      if e.Some? {
        return;
      }
      k, e := LoadConstants(n);
      h := Head(s, ld, lld, x[0], x[1], x[2], x[3], code, k);
    }

    method LoadFunction(parent: Str) returns (f: Proto, e: Option<Why>)
      requires z.Valid()
      modifies z, this`nCcalls
      ensures z.Valid() && Is(z, ReadFunction(old(z.Rest()), parent, old(nCcalls), check), f, e)
        && (e.None? ==> nCcalls == old(nCcalls))
      decreases if nCcalls < MAXCCALLS then MAXCCALLS - nCcalls else 0, 0
    {
      hide ReadInt, ReadHead, ReadDebug, ReadFunctions, Assemble;
      var h0 := Head(None, 0, 0, 0, 0, 0, 0, [], []);
      f := Assemble(h0, [], [], Debug([], [], []));
      nCcalls := nCcalls + 1;
      if nCcalls > MAXCCALLS {
        e := Some(TooDeep);
        return;
      }
      var h, n, ps, d;
      h, e := LoadHead();
      if e.Some? {
        return;
      }
      n, e := LoadInt();
      if e.Some? {
        return;
      }
      ps, e := LoadFunctions(n, if h.source.Some? then h.source.v else parent);
      if e.Some? {
        return;
      }
      d, e := LoadDebug();
      if e.Some? {
        return;
      }
      f := Assemble(h, parent, ps, d);
      if !check(f) {
        e := Some(BadCode);
        return;
      }
      nCcalls := nCcalls - 1;
    }

    method LoadFunctions(n: nat, parent: Str) returns (ps: seq<Proto>, e: Option<Why>)
      requires z.Valid()
      modifies z, this`nCcalls
      ensures z.Valid() && Is(z, ReadFunctions(old(z.Rest()), n, parent, old(nCcalls), check), ps, e)
        && (e.None? ==> nCcalls == old(nCcalls))
      decreases if nCcalls < MAXCCALLS then MAXCCALLS - nCcalls else 0, 1
    {
      hide ReadFunction;
      ps, e := [], None;
      var i := 0;
      PrefixedNone(ReadFunctions(z.Rest(), n, parent, nCcalls, check));
      while i < n
        invariant 0 <= i <= n && z.Valid() && e.None? && nCcalls == old(nCcalls)
        invariant ReadFunctions(old(z.Rest()), n, parent, nCcalls, check) ==
          Prefixed(ps, ReadFunctions(z.Rest(), n - i, parent, nCcalls, check))
      {
        var f;
        f, e := LoadFunction(parent);
        if e.Some? {
          return;
        }
        PrefixedMore(ps, f, ReadFunctions(z.Rest(), n - i - 1, parent, nCcalls, check));
        ps := ps + [f];
        i := i + 1;
      }
      PrefixedAll(ps, z.Rest());
    }

    /** luaU_undump */
    method LoadChunk() returns (f: Proto, e: Option<Why>)
      requires z.Valid()
      modifies z, this`nCcalls
      ensures z.Valid() && Is(z, Undump(old(z.Rest()), old(nCcalls), check), f, e)
    {
      hide Block, ReadFunction, Assemble, HEADER;
      f := Assemble(Head(None, 0, 0, 0, 0, 0, 0, [], []), [], [], Debug([], [], []));
      var x;
      x, e := LoadBlock(|HEADER|);
      if e.Some? {
        return;
      }
      if x != HEADER {
        e := Some(BadHeader);
        return;
      }
      f, e := LoadFunction(UNKNOWN);
    }
  }

  /** However a dump is cut into blocks, loading it gives back the tree of functions, with the
      source names that are missing filled in. */
  method Reload(f: Proto, blocks: seq<seq<Byte>>, calls: nat, check: Proto -> bool) returns (g: Proto, e: Option<Why>)
    requires Fits(f) && Loadable(f, UNKNOWN, MAXCCALLS - calls, check) && Dump(f) <= Flat(blocks)
    ensures e == None && g == Inherit(f, UNKNOWN) && (g == f <==> Sourced(f))
  {
    hide Fits, Loadable, Dump, Undump, Inherit;
    var z := new Zio(blocks);
    var s := new LoadState(z, calls, check);
    assert Flat(blocks) == Dump(f) + Flat(blocks)[|Dump(f)|..];
    RoundTrip(f, calls, check, Flat(blocks)[|Dump(f)|..]);
    InheritNothing(f, UNKNOWN);
    g, e := s.LoadChunk();
  }
}
