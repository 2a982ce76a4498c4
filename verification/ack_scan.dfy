/** The search of the ack driver for the best chain of transformations (util/ack/scan.c),
    for phases that need no preprocessor and a given suffix to stop at, which is not empty. */
module AckScan {
  import opened Shared

  const SUFCHAR := '.'

  /** A phase: input suffixes as one string, output suffix, optimizer level and priority. */
  datatype Trf = Trf(ins: string, out: string, isprep: bool, linker: bool, optim: int, priority: int)

  // ----------------------------------------------------------- input suffixes

  /** Where the suffix that starts at i ends. */
  function SuffixEnd(s: string, i: int): (r: int)
    requires 0 <= i < |s|
    ensures i < r <= |s| && (r < |s| ==> s[r] == SUFCHAR) && forall k :: i < k < r ==> s[k] != SUFCHAR
    decreases |s| - i
  {
    if i + 1 == |s| || s[i + 1] == SUFCHAR then i + 1 else SuffixEndFrom(s, i, i + 1)
  }

  function SuffixEndFrom(s: string, i: int, j: int): (r: int)
    requires 0 <= i < j <= |s| && forall k :: i < k < j ==> s[k] != SUFCHAR
    ensures i < r <= |s| && (r < |s| ==> s[r] == SUFCHAR) && forall k :: i < k < r ==> s[k] != SUFCHAR
    decreases |s| - j
  {
    if j == |s| || s[j] == SUFCHAR then j else SuffixEndFrom(s, i, j + 1)
  }

  /** The suffixes listed from place i on. */
  function SuffixesFrom(s: string, i: int): seq<string>
    requires 0 <= i <= |s|
    decreases |s| - i
  {
    if i == |s| then [] else
    var e := SuffixEnd(s, i);
    [s[i..e]] + SuffixesFrom(s, e)
  }

  /** A list of suffixes starts with a dot and does not end with one. */
  predicate WellFormed(s: string) { s != "" && s[0] == SUFCHAR && s[|s| - 1] != SUFCHAR }

  predicate Accepts(t: Trf, suffix: string) { !t.isprep && suffix in SuffixesFrom(t.ins, 0) }

  /** satisfy */
  method Satisfy(t: Trf, suffix: string) returns (b: bool)
    requires WellFormed(t.ins)
    ensures b == Accepts(t, suffix)
  {
    if t.isprep {
      return false;
    }
    var l := 0;
    while l < |t.ins|
      invariant 0 <= l <= |t.ins| && (l < |t.ins| ==> t.ins[l] == SUFCHAR)
      invariant suffix in SuffixesFrom(t.ins, 0) <==> suffix in SuffixesFrom(t.ins, l)
      decreases |t.ins| - l
    {
      assert l + 1 < |t.ins|;
      var f := l;
      l := SuffixEnd(t.ins, f);
      if t.ins[f..l] == suffix {
        return true;
      }
    }
    return false;
  }

  // ------------------------------------------------------------------- chains

  /** c is a way, through phases from the list in order, from the suffix to the stop suffix. */
  ghost predicate Chain(tr: seq<Trf>, stop: string, c: seq<int>, from: int, suffix: string)
    decreases |c|
  {
    if suffix == stop then c == [] else
    c != [] && from <= c[0] < |tr| && 0 <= c[0] && Accepts(tr[c[0]], suffix)
      && Chain(tr, stop, c[1..], c[0] + 1, tr[c[0]].out)
  }

  /** What chains are compared by: added priorities, required phases, optimizers. */
  datatype Score = Score(p: int, n: int, o: int)

  function Add(s: Score, t: Trf, level: int): Score {
    Score(s.p + t.priority - (if t.optim > level then 1 else 0), s.n + (if t.optim != 0 then 0 else 1),
      s.o + (if t.optim != 0 then 1 else 0))
  }

  ghost function ScoreOf(tr: seq<Trf>, level: int, c: seq<int>): Score {
    if c == [] then Score(0, 0, 0) else
    var s := ScoreOf(tr, level, c[..|c| - 1]);
    var i := c[|c| - 1];
    if 0 <= i < |tr| then Add(s, tr[i], level) else s
  }

  /** s is better than t: a higher priority, else fewer required phases, else more optimizers if
      optimization is wanted and fewer if not. */
  predicate Better(s: Score, t: Score, level: int) {
    s.p > t.p || (s.p == t.p && (s.n < t.n || (s.n == t.n && if level != 0 then s.o > t.o else s.o < t.o)))
  }

  // -------------------------------------------------------------------- flags

  predicate Increasing(c: seq<int>, n: int) {
    (forall i :: 0 <= i < |c| ==> 0 <= c[i] < n) && forall i, j :: 0 <= i < j < |c| ==> c[i] < c[j]
  }

  /** The flags of a list are set for just the phases of c. */
  predicate Flags(f: seq<bool>, c: seq<int>) { forall i :: 0 <= i < |f| ==> (f[i] <==> i in c) }

  /** Adding up over the flags gives the score of the chain. */
  ghost function FlagScore(tr: seq<Trf>, level: int, f: seq<bool>, n: nat): Score
    requires n <= |f| == |tr|
  {
    if n == 0 then Score(0, 0, 0) else
    var s := FlagScore(tr, level, f, n - 1);
    if f[n - 1] then Add(s, tr[n - 1], level) else s
  }

  lemma {:induction false} FlagScoreIs(tr: seq<Trf>, level: int, f: seq<bool>, c: seq<int>, n: nat)
    requires n <= |f| == |tr| && Increasing(c, n) && forall i :: 0 <= i < n ==> (f[i] <==> i in c)
    ensures FlagScore(tr, level, f, n) == ScoreOf(tr, level, c)
    decreases n
  {
    assert |c| > 0 ==> 0 <= c[0] < n;
    if n > 0 {
      if f[n - 1] {
        assert c[|c| - 1] == n - 1 by {
          var i :| 0 <= i < |c| && c[i] == n - 1;
        }
        FlagScoreIs(tr, level, f, c[..|c| - 1], n - 1);
      } else {
        FlagScoreIs(tr, level, f, c, n - 1);
      }
    } else {
      assert c == [];
    }
  }

  // ------------------------------------------------------------------ search

  /** No chain is better than the best, which is one of them. */
  ghost predicate AtLeast(tr: seq<Trf>, level: int, best: Option<seq<int>>, c: seq<int>) {
    best.Some? && !Better(ScoreOf(tr, level, c), ScoreOf(tr, level, best.v), level)
  }

  ghost predicate NotWorse(tr: seq<Trf>, level: int, best: Option<seq<int>>, best': Option<seq<int>>) {
    best.None? || AtLeast(tr, level, best', best.v)
  }

  lemma NotWorseTrans(tr: seq<Trf>, level: int, b: Option<seq<int>>, b1: Option<seq<int>>, b2: Option<seq<int>>)
    requires NotWorse(tr, level, b, b1) && NotWorse(tr, level, b1, b2)
    ensures NotWorse(tr, level, b, b2)
  {
  }

  lemma AtLeastStays(tr: seq<Trf>, level: int, b: Option<seq<int>>, b': Option<seq<int>>, c: seq<int>)
    requires AtLeast(tr, level, b, c) && NotWorse(tr, level, b, b')
    ensures AtLeast(tr, level, b', c)
  {
  }

  datatype Found = Transform | NoMatch | NoPath

  class Scanner {
    const tr: seq<Trf>
    const stop: string
    const level: int
    var scan: seq<bool>
    var bscan: seq<bool>
    var next: seq<int>
    var keep: seq<bool>
    var last_p: int
    var last_n: int
    var last_o: int
    var suf_found: bool
    ghost var best: Option<seq<int>>

    ghost predicate Valid()
      reads this
    {
      && |scan| == |bscan| == |next| == |keep| == |tr| && stop != ""
      && (forall i :: 0 <= i < |tr| ==> WellFormed(tr[i].ins))
      && (if best.None? then last_n == -1
          else
            && Increasing(best.v, |tr|) && Flags(bscan, best.v) && last_n >= 0
            && ScoreOf(tr, level, best.v) == Score(last_p, last_n, last_o))
    }

    constructor (phases: seq<Trf>, stopsuffix: string, optlevel: int)
      requires stopsuffix != "" && forall i :: 0 <= i < |phases| ==> WellFormed(phases[i].ins)
      ensures Valid() && tr == phases && stop == stopsuffix && level == optlevel && best == None
        && next == seq(|phases|, _ => -1) && keep == seq(|phases|, _ => false)
    {
      tr, stop, level := phases, stopsuffix, optlevel;
      scan, bscan := seq(|phases|, _ => false), seq(|phases|, _ => false);
      next, keep := seq(|phases|, _ => -1), seq(|phases|, _ => false);
      last_p, last_n, last_o, suf_found, best := 0, -1, 0, false, None;
    }

    /** scan_found: the chain of the flags is compared with the best one. */
    method ScanFound(ghost c: seq<int>)
      requires Valid() && Increasing(c, |tr|) && Flags(scan, c)
      modifies this`suf_found, this`bscan, this`last_p, this`last_n, this`last_o, this`best
      ensures Valid() && suf_found && (best == old(best) || best == Some(c)) && AtLeast(tr, level, best, c)
        && NotWorse(tr, level, old(best), best)
    {
      suf_found := true;
      var p, n, o := 0, 0, 0;
      var i := 0;
      while i < |tr|
        invariant 0 <= i <= |tr| && FlagScore(tr, level, scan, i) == Score(p, n, o) && n >= 0
      {
        if scan[i] {
          if tr[i].optim != 0 {
            o := o + 1;
          } else {
            n := n + 1;
          }
          if tr[i].optim > level {
            p := p - 1;
          }
          p := p + tr[i].priority;
        }
        i := i + 1;
      }
      FlagScoreIs(tr, level, scan, c, |tr|);
      if last_n == -1 || last_p < p || (last_p == p
          && (last_n > n || (last_n == n && if level != 0 then last_o < o else last_o > o))) {
        bscan := scan;
        last_n, last_o, last_p := n, o, p;
        best := Some(c);
      }
    }

    /** try: all chains from the suffix with phases from place from on; path leads to here. */
    method Try(from: int, suffix: string, ghost path: seq<int>)
      requires Valid() && 0 <= from <= |tr| && Increasing(path, from) && Flags(scan, path)
      modifies this`scan, this`suf_found, this`bscan, this`last_p, this`last_n, this`last_o, this`best
      ensures Valid() && scan == old(scan) && Tried(tr, stop, level, from, suffix, path, old(best), best, |tr|)
      ensures suf_found == (old(suf_found) || suffix == stop || SomeAccepts(tr, suffix, from, |tr|))
      decreases |tr| - from
    {
      ghost var before, flags := best, scan;
      hide Tried, Accepts, WellFormed, Chain, Flags, Increasing, SomeAccepts;
      if suffix == stop {
        IncreasingWider(path, from, |tr|);
        ScanFound(path);
        TriedStop(tr, stop, level, from, suffix, path, before, best);
        return;
      }
      TriedNone(tr, stop, level, from, suffix, path, before);
      SomeNone(tr, suffix, from);
      var k := from;
      while k < |tr|
        invariant from <= k <= |tr| && Valid() && scan == flags
          && Tried(tr, stop, level, from, suffix, path, before, best, k)
        invariant suf_found == (old(suf_found) || SomeAccepts(tr, suffix, from, k))
      {
        var b := Satisfy(tr[k], suffix);
        SomeMore(tr, suffix, from, k);
        if b {
          TryOne(k, suffix, from, path, before);
        } else {
          TriedSkip(tr, stop, level, from, suffix, path, before, best, k);
        }
        k := k + 1;
      }
    }

    /** The phase at k goes on the path. */
    method TryOne(k: int, ghost suffix: string, ghost from: int, ghost path: seq<int>, ghost before: Option<seq<int>>)
      requires Valid() && 0 <= from <= k < |tr| && Increasing(path, from) && Flags(scan, path)
        && Accepts(tr[k], suffix) && suffix != stop
      requires Tried(tr, stop, level, from, suffix, path, before, best, k)
      modifies this`scan, this`suf_found, this`bscan, this`last_p, this`last_n, this`last_o, this`best
      ensures Valid() && scan == old(scan) && Tried(tr, stop, level, from, suffix, path, before, best, k + 1)
        && suf_found
      decreases |tr| - k, 0
    {
      hide Tried, Accepts, WellFormed, Chain, SomeAccepts;
      ghost var b1 := best;
      suf_found := true;
      assert !scan[k] by { PathBelow(path, from, k); }
      scan := scan[k := true];
      PathMore(path, from, k, old(scan), scan);
      Try(k + 1, tr[k].out, path + [k]);
      TriedOne(tr, stop, level, from, suffix, path, before, b1, best, k);
      scan := scan[k := false];
    }

    /** scan_end: the phases of the best chain are linked by next, first is where they start. */
    method ScanEnd() returns (f: Found, first: int)
      requires Valid() && next == seq(|tr|, _ => -1)
      modifies this`next, this`keep
      ensures f == (if best.Some? then Transform else if suf_found then NoPath else NoMatch) && |next| == |keep| == |tr|
      ensures best.Some? ==> Linked(next, best.v, first) && OnlyLinked(next, best.v)
      ensures best.Some? ==>
        forall j :: 0 <= j < |tr| ==> (keep[j] <==> old(keep)[j] || KeepsOutput(tr, best.v, j))
      ensures best.None? ==> first == -1 && next == old(next) && keep == old(keep)
    {
      first := -1;
      if last_n == -1 {
        return if suf_found then NoPath else NoMatch, first;
      }
      ghost var c := best.v;
      var prev, i := -1, 0;
      ghost var m := 0;
      ghost var keep0 := keep;
      LinkStart(next, c);
      KeepStart(keep, tr, c);
      hide LinkedUpTo, Flags, Increasing, ScoreOf, WellFormed, Linked, Below, KeptUpTo, KeepsOutput, OnlyLinked;
      BelowStart(c, |tr|);
      while i < |tr|
        invariant 0 <= i <= |tr| && |next| == |tr| == |keep| && LinkedUpTo(next, c, first, prev, m) && Below(c, i, m)
        invariant KeptUpTo(keep0, keep, tr, c, m)
      {
        NextFlag(bscan, c, i, m);
        if bscan[i] {
          LinkNext(next, c, first, prev, m);
          KeepNext(keep0, keep, tr, c, next, first, prev, m);
          if prev != -1 {
            next := next[prev := i];
            if tr[i].linker {
              keep := keep[prev := true];
            }
          } else {
            first := i;
          }
          prev := i;
          m := m + 1;
        }
        i := i + 1;
      }
      LinkEnd(next, c, first, prev, m);
      KeepEnd(keep0, keep, tr, c, next, first, prev, m);
      if prev != -1 {
        keep := keep[prev := true];
      }
      f := Transform;
    }

    /** getpath: a best chain from the suffix to the stop suffix, linked up, or a failure. */
    method GetPath(suffix: string) returns (f: Found, first: int, ghost c: seq<int>)
      requires Valid() && next == seq(|tr|, _ => -1)
      modifies this
      ensures Valid()
      ensures f == Transform ==> Chain(tr, stop, c, 0, suffix) && Linked(next, c, first) && OnlyLinked(next, c)
      ensures |keep| == |tr|
      ensures f == Transform ==>
        forall j :: 0 <= j < |tr| ==> (keep[j] <==> old(keep)[j] || KeepsOutput(tr, c, j))
      ensures f != Transform ==> first == -1 && next == old(next) && keep == old(keep)
      ensures f == Transform ==>
        forall d :: Chain(tr, stop, d, 0, suffix) ==> !Better(ScoreOf(tr, level, d), ScoreOf(tr, level, c), level)
      ensures f != Transform <==> forall d :: !Chain(tr, stop, d, 0, suffix)
      ensures f == NoMatch <==> suffix != stop && !SomeAccepts(tr, suffix, 0, |tr|)
      ensures f != Transform <==> forall d :: !LooseChain(tr, stop, d, 0, suffix)
      ensures f == Transform && NeverBack(tr, stop) ==>
        forall d :: LooseChain(tr, stop, d, 0, suffix) ==> !Better(ScoreOf(tr, level, d), ScoreOf(tr, level, c), level)
    {
      hide Chain, Accepts, WellFormed, SomeAccepts, Linked, OnlyLinked, KeepsOutput, LooseChain, Better, ScoreOf, Tried,
        NeverBack;
      scan := seq(|tr|, _ => false);
      suf_found, last_n, last_o := false, -1, 0;
      best := None;
      assert Flags(scan, []) && Increasing([], 0);
      hide Flags, Increasing;
      Try(0, suffix, []);
      ChainMatches(tr, stop, suffix);
      TriedAll(tr, stop, level, suffix, best);
      f, first := ScanEnd();
      c := if best.Some? then best.v else [];
      LooseWays(tr, stop, suffix);
    }
  }

  ghost predicate SomeAccepts(tr: seq<Trf>, suffix: string, from: int, to: int)
    requires 0 <= from && to <= |tr|
  {
    exists i :: from <= i < to && Accepts(tr[i], suffix)
  }

  lemma SomeNone(tr: seq<Trf>, suffix: string, from: int)
    requires 0 <= from <= |tr|
    ensures !SomeAccepts(tr, suffix, from, from)
  {
  }

  lemma SomeMore(tr: seq<Trf>, suffix: string, from: int, k: int)
    requires 0 <= from <= k < |tr|
    ensures SomeAccepts(tr, suffix, from, k + 1) == (SomeAccepts(tr, suffix, from, k) || Accepts(tr[k], suffix))
      && !SomeAccepts(tr, suffix, from, from)
  {
    hide Accepts;
  }

  /** Before is the best chain from before the search, best the one now; all continuations of
      path with a first phase before k have been looked at. */
  ghost predicate Tried(tr: seq<Trf>, stop: string, level: int, from: int, suffix: string, path: seq<int>,
      before: Option<seq<int>>, best: Option<seq<int>>, k: int) {
    && NotWorse(tr, level, before, best)
    && (best == before || exists c :: Chain(tr, stop, c, from, suffix) && best == Some(path + c))
    && (forall c :: Chain(tr, stop, c, from, suffix) && (c != [] ==> c[0] < k) ==> AtLeast(tr, level, best, path + c))
  }

  lemma TriedStop(tr: seq<Trf>, stop: string, level: int, from: int, suffix: string, path: seq<int>,
      before: Option<seq<int>>, best: Option<seq<int>>)
    requires suffix == stop && (best == before || best == Some(path)) && AtLeast(tr, level, best, path)
      && NotWorse(tr, level, before, best)
    ensures Tried(tr, stop, level, from, suffix, path, before, best, |tr|)
  {
    assert path + [] == path && Chain(tr, stop, [], from, suffix);
    assert forall c :: Chain(tr, stop, c, from, suffix) ==> c == [];
  }

  lemma TriedNone(tr: seq<Trf>, stop: string, level: int, from: int, suffix: string, path: seq<int>,
      best: Option<seq<int>>)
    requires suffix != stop
    ensures Tried(tr, stop, level, from, suffix, path, best, best, from)
  {
    hide ScoreOf;
  }

  lemma TriedSkip(tr: seq<Trf>, stop: string, level: int, from: int, suffix: string, path: seq<int>,
      before: Option<seq<int>>, best: Option<seq<int>>, k: int)
    requires Tried(tr, stop, level, from, suffix, path, before, best, k) && suffix != stop && 0 <= k < |tr|
      && !Accepts(tr[k], suffix)
    ensures Tried(tr, stop, level, from, suffix, path, before, best, k + 1)
  {
    hide ScoreOf, Accepts;
  }

  lemma TriedOne(tr: seq<Trf>, stop: string, level: int, from: int, suffix: string, path: seq<int>,
      before: Option<seq<int>>, b1: Option<seq<int>>, best: Option<seq<int>>, k: int)
    requires Tried(tr, stop, level, from, suffix, path, before, b1, k) && suffix != stop && 0 <= from <= k < |tr|
      && Accepts(tr[k], suffix)
    requires Tried(tr, stop, level, k + 1, tr[k].out, path + [k], b1, best, |tr|)
    ensures Tried(tr, stop, level, from, suffix, path, before, best, k + 1)
  {
    hide ScoreOf, Accepts, AtLeast;
    NotWorseTrans(tr, level, before, b1, best);
    if best != b1 {
      var c :| Chain(tr, stop, c, k + 1, tr[k].out) && best == Some(path + [k] + c);
      assert ([k] + c)[1..] == c && Chain(tr, stop, [k] + c, from, suffix) && path + ([k] + c) == path + [k] + c;
    }
    forall c | Chain(tr, stop, c, from, suffix) && (c != [] ==> c[0] < k + 1)
        ensures AtLeast(tr, level, best, path + c) {
      if c[0] == k {
        assert c == [k] + c[1..] && path + c == path + [k] + c[1..];
        ChainBelow(tr, stop, c[1..], k + 1, tr[k].out);
      } else {
        AtLeastStays(tr, level, b1, best, path + c);
      }
    }
  }

  lemma ChainBelow(tr: seq<Trf>, stop: string, c: seq<int>, from: int, suffix: string)
    requires Chain(tr, stop, c, from, suffix)
    ensures c != [] ==> c[0] < |tr|
  {
  }

  lemma TriedAll(tr: seq<Trf>, stop: string, level: int, suffix: string, best: Option<seq<int>>)
    requires Tried(tr, stop, level, 0, suffix, [], None, best, |tr|)
    ensures best.Some? ==> Chain(tr, stop, best.v, 0, suffix)
    ensures forall d :: Chain(tr, stop, d, 0, suffix) ==>
      best.Some? && !Better(ScoreOf(tr, level, d), ScoreOf(tr, level, best.v), level)
  {
    hide ScoreOf, Accepts;
    if best.Some? {
      var c :| Chain(tr, stop, c, 0, suffix) && best == Some([] + c);
      assert [] + c == c;
    }
    forall d | Chain(tr, stop, d, 0, suffix) ensures AtLeast(tr, level, best, d) {
      ChainBelow(tr, stop, d, 0, suffix);
      assert [] + d == d;
    }
  }

  /** With a chain some phase takes the suffix, unless there is nothing to do. */
  lemma ChainMatches(tr: seq<Trf>, stop: string, suffix: string)
    ensures forall d :: Chain(tr, stop, d, 0, suffix) ==> suffix == stop || SomeAccepts(tr, suffix, 0, |tr|)
  {
    hide Accepts;
  }

  lemma IncreasingWider(c: seq<int>, n: int, m: int)
    requires Increasing(c, n) && n <= m
    ensures Increasing(c, m)
  {
  }

  lemma PathBelow(path: seq<int>, from: int, k: int)
    requires Increasing(path, from) && from <= k
    ensures k !in path
  {
  }

  lemma PathMore(path: seq<int>, from: int, k: int, f: seq<bool>, f': seq<bool>)
    requires Increasing(path, from) && 0 <= from <= k < |f| && Flags(f, path) && f' == f[k := true]
    ensures Increasing(path + [k], k + 1) && Flags(f', path + [k])
  {
    assert forall i :: i in path + [k] <==> i in path || i == k;
  }

  /** next leads through the phases of c from first on, and no further. */
  ghost predicate Linked(next: seq<int>, c: seq<int>, first: int) {
    && (c == [] ==> first == -1) && (c != [] ==> first == c[0])
    && (forall i :: 0 <= i < |c| ==> 0 <= c[i] < |next|)
    && (forall i :: 0 <= i < |c| ==> next[c[i]] == if i + 1 < |c| then c[i + 1] else -1)
  }

  ghost predicate LinkedUpTo(next: seq<int>, c: seq<int>, first: int, prev: int, m: int) {
    && 0 <= m <= |c| && Increasing(c, |next|) && Linked(next, c[..m], first)
    && prev == (if m == 0 then -1 else c[m - 1])
    && (forall i :: 0 <= i < |next| && i !in c[..m] ==> next[i] == -1)
  }

  /** No other phase is linked to anything. */
  ghost predicate OnlyLinked(next: seq<int>, c: seq<int>) {
    forall i :: 0 <= i < |next| && i !in c ==> next[i] == -1
  }

  /** The output of phase j of the chain is a file to be kept: it comes last, or right before a
      linker. */
  ghost predicate KeepsOutput(tr: seq<Trf>, c: seq<int>, j: int) {
    exists m :: 0 <= m < |c| && c[m] == j && (m + 1 == |c| || (0 <= c[m + 1] < |tr| && tr[c[m + 1]].linker))
  }

  ghost predicate BeforeLinker(tr: seq<Trf>, c: seq<int>, x: int, j: int) {
    0 <= x && x + 1 < |c| && c[x] == j && 0 <= c[x + 1] < |tr| && tr[c[x + 1]].linker
  }

  /** What has been marked to be kept once m phases have been linked. */
  ghost predicate KeptUpTo(keep0: seq<bool>, keep: seq<bool>, tr: seq<Trf>, c: seq<int>, m: int) {
    && |keep| == |keep0| == |tr|
    && forall j :: 0 <= j < |tr| ==> (keep[j] <==> keep0[j] || exists x :: x + 1 < m && BeforeLinker(tr, c, x, j))
  }

  lemma KeepStart(keep: seq<bool>, tr: seq<Trf>, c: seq<int>)
    requires |keep| == |tr|
    ensures KeptUpTo(keep, keep, tr, c, 0)
  {
  }

  lemma KeepNext(keep0: seq<bool>, keep: seq<bool>, tr: seq<Trf>, c: seq<int>, next: seq<int>, first: int, prev: int,
      m: int)
    requires KeptUpTo(keep0, keep, tr, c, m) && LinkedUpTo(next, c, first, prev, m) && m < |c| && |next| == |tr|
    ensures |keep| == |tr| && 0 <= c[m] < |tr| && (prev != -1 ==> 0 <= prev < |tr|)
    ensures KeptUpTo(keep0, if prev != -1 && tr[c[m]].linker then keep[prev := true] else keep, tr, c, m + 1)
  {
    var keep' := if prev != -1 && tr[c[m]].linker then keep[prev := true] else keep;
    if m > 0 {
      assert c[..m][m - 1] == c[m - 1] && prev == c[m - 1] && 0 <= prev;
    }
    forall j | 0 <= j < |tr|
      ensures keep'[j] <==> keep0[j] || exists x :: x + 1 < m + 1 && BeforeLinker(tr, c, x, j)
    {
      if m > 0 && BeforeLinker(tr, c, m - 1, j) {
        assert keep'[j];
      }
      if keep'[j] && !keep[j] {
        assert BeforeLinker(tr, c, m - 1, j);
      }
    }
  }

  lemma KeepEnd(keep0: seq<bool>, keep: seq<bool>, tr: seq<Trf>, c: seq<int>, next: seq<int>, first: int, prev: int,
      m: int)
    requires KeptUpTo(keep0, keep, tr, c, m) && LinkedUpTo(next, c, first, prev, m) && m == |c| && |next| == |tr|
    ensures prev != -1 ==> 0 <= prev < |tr| == |keep|
    ensures var keep' := if prev != -1 then keep[prev := true] else keep;
      forall j :: 0 <= j < |tr| ==> (keep'[j] <==> keep0[j] || KeepsOutput(tr, c, j))
  {
    var keep' := if prev != -1 then keep[prev := true] else keep;
    if m > 0 {
      assert c[..m] == c && prev == c[m - 1];
    }
    forall j | 0 <= j < |tr| ensures keep'[j] <==> keep0[j] || KeepsOutput(tr, c, j) {
      if x :| x + 1 < m && BeforeLinker(tr, c, x, j) {
        assert KeepsOutput(tr, c, j);
      }
      if KeepsOutput(tr, c, j) {
        var x :| 0 <= x < |c| && c[x] == j && (x + 1 == |c| || (0 <= c[x + 1] < |tr| && tr[c[x + 1]].linker));
        assert x + 1 < m ==> BeforeLinker(tr, c, x, j);
      }
    }
  }

  /** The first m phases of c are those before place i. */
  ghost predicate Below(c: seq<int>, i: int, m: int) {
    0 <= m <= |c| && (m > 0 ==> c[m - 1] < i) && (m < |c| ==> c[m] >= i)
  }

  lemma BelowStart(c: seq<int>, n: int)
    requires Increasing(c, n)
    ensures Below(c, 0, 0)
  {
  }

  lemma NextFlag(f: seq<bool>, c: seq<int>, i: int, m: int)
    requires Flags(f, c) && Increasing(c, |f|) && Below(c, i, m) && 0 <= i < |f|
    ensures f[i] <==> m < |c| && c[m] == i
    ensures Below(c, i + 1, if f[i] then m + 1 else m)
  {
    if f[i] {
      var j :| 0 <= j < |c| && c[j] == i;
      assert j == m;
    } else {
      assert m < |c| ==> c[m] in c;
    }
  }

  lemma LinkStart(next: seq<int>, c: seq<int>)
    requires Increasing(c, |next|) && next == seq(|next|, _ => -1)
    ensures LinkedUpTo(next, c, -1, -1, 0)
  {
  }

  lemma LinkEnd(next: seq<int>, c: seq<int>, first: int, prev: int, m: int)
    requires LinkedUpTo(next, c, first, prev, m) && Below(c, |next|, m)
    ensures m == |c| && Linked(next, c, first) && OnlyLinked(next, c) && (c == [] <==> prev == -1)
      && (c != [] ==> prev == c[|c| - 1] && 0 <= prev < |next|)
  {
    assert c[..m] == c;
  }

  lemma LinkNext(next: seq<int>, c: seq<int>, first: int, prev: int, m: int)
    requires LinkedUpTo(next, c, first, prev, m) && m < |c|
    ensures prev != -1 ==> 0 <= prev < |next|
    ensures LinkedUpTo(if prev != -1 then next[prev := c[m]]
      else next, c, if prev != -1 then first else c[m], c[m], m + 1)
  {
    var d, d' := c[..m], c[..m + 1];
    assert d' == d + [c[m]];
    var next' := if prev != -1 then next[prev := c[m]] else next;
    assert c[m] !in d;
    forall i | 0 <= i < |d'| ensures next'[d'[i]] == if i + 1 < |d'| then d'[i + 1] else -1 {
    }
  }

  // -------------------------------------------------- chains that go on and come back

  /** A way to the stop suffix that may meet it on the way as well. */
  ghost predicate LooseChain(tr: seq<Trf>, stop: string, c: seq<int>, from: int, suffix: string)
    decreases |c|
  {
    if c == [] then suffix == stop else
    from <= c[0] < |tr| && 0 <= c[0] && Accepts(tr[c[0]], suffix)
      && LooseChain(tr, stop, c[1..], c[0] + 1, tr[c[0]].out)
  }

  /** No phases lead from the stop suffix back to it. */
  ghost predicate NeverBack(tr: seq<Trf>, stop: string) {
    forall c, from :: LooseChain(tr, stop, c, from, stop) ==> c == []
  }

  /** The search ends where it first meets the stop suffix. That loses no way to it exactly
      when no phases lead from the stop suffix back to it. */
  lemma LooseIsChain(tr: seq<Trf>, stop: string)
    ensures (forall c, from, suffix :: LooseChain(tr, stop, c, from, suffix) <==>
      Chain(tr, stop, c, from, suffix)) <==> NeverBack(tr, stop)
  {
    hide LooseChain, Chain;
    if NeverBack(tr, stop) {
      forall c, from, suffix ensures LooseChain(tr, stop, c, from, suffix) <==> Chain(tr, stop, c, from, suffix) {
        ChainIsLoose(tr, stop, c, from, suffix);
        if LooseChain(tr, stop, c, from, suffix) {
          NoDetour(tr, stop, c, from, suffix);
        }
      }
    } else {
      var c, from :| LooseChain(tr, stop, c, from, stop) && c != [];
      EndsAtStop(tr, stop, c, from);
    }
  }

  lemma EndsAtStop(tr: seq<Trf>, stop: string, c: seq<int>, from: int)
    ensures Chain(tr, stop, c, from, stop) <==> c == []
  {
  }

  lemma LooseWays(tr: seq<Trf>, stop: string, suffix: string)
    ensures (exists d :: LooseChain(tr, stop, d, 0, suffix)) <==> exists d :: Chain(tr, stop, d, 0, suffix)
    ensures NeverBack(tr, stop) ==> forall d :: LooseChain(tr, stop, d, 0, suffix) <==> Chain(tr, stop, d, 0, suffix)
  {
    hide LooseChain, Chain;
    LooseIsChain(tr, stop);
    if d :| LooseChain(tr, stop, d, 0, suffix) {
      var n := LooseHasChain(tr, stop, d, 0, suffix);
    }
    if d :| Chain(tr, stop, d, 0, suffix) {
      ChainIsLoose(tr, stop, d, 0, suffix);
    }
  }

  lemma {:induction false} NoDetour(tr: seq<Trf>, stop: string, c: seq<int>, from: int, suffix: string)
    requires NeverBack(tr, stop) && LooseChain(tr, stop, c, from, suffix)
    ensures Chain(tr, stop, c, from, suffix)
    decreases |c|
  {
    hide Accepts;
    if c != [] {
      NoDetour(tr, stop, c[1..], c[0] + 1, tr[c[0]].out);
    }
  }

  lemma {:induction false} ChainIsLoose(tr: seq<Trf>, stop: string, c: seq<int>, from: int, suffix: string)
    ensures Chain(tr, stop, c, from, suffix) ==> LooseChain(tr, stop, c, from, suffix)
    decreases |c|
  {
    hide Accepts;
    if c != [] && Chain(tr, stop, c, from, suffix) {
      ChainIsLoose(tr, stop, c[1..], c[0] + 1, tr[c[0]].out);
    }
  }

  /** Whether there is a way at all is the same question in every case: a way that meets the
      stop suffix early has a beginning that ends there. */
  lemma {:induction false} LooseHasChain(tr: seq<Trf>, stop: string, c: seq<int>, from: int, suffix: string)
      returns (n: nat)
    requires LooseChain(tr, stop, c, from, suffix)
    ensures n <= |c| && Chain(tr, stop, c[..n], from, suffix)
    decreases |c|
  {
    hide Accepts;
    if suffix == stop {
      n := 0;
    } else {
      n := LooseHasChain(tr, stop, c[1..], c[0] + 1, tr[c[0]].out);
      assert c[1..][..n] == c[..n + 1][1..];
      n := n + 1;
    }
  }

  /** Where they do, a better way through the stop suffix may be missed. */
  lemma StopsEarly()
    ensures var tr := [Trf(".a", ".s", false, false, 0, 0), Trf(".s", ".s", false, false, 0, 5)];
      && Chain(tr, ".s", [0], 0, ".a") && LooseChain(tr, ".s", [0, 1], 0, ".a") && !Chain(tr, ".s", [0, 1], 0, ".a")
      && Better(ScoreOf(tr, 0, [0, 1]), ScoreOf(tr, 0, [0]), 0)
  {
    var t0, t1 := Trf(".a", ".s", false, false, 0, 0), Trf(".s", ".s", false, false, 0, 5);
    var tr := [t0, t1];
    OneSuffix(".a");
    OneSuffix(".s");
    assert [0, 1][1..] == [1] && [1][1..] == [] && [0][1..] == [];
    assert LooseChain(tr, ".s", [], 2, ".s") && LooseChain(tr, ".s", [1], 1, ".s");
    assert [0, 1][..1] == [0] && [0][..0] == [];
    assert ScoreOf(tr, 0, []) == Score(0, 0, 0);
    assert ScoreOf(tr, 0, [0]) == Score(0, 1, 0);
    assert ScoreOf(tr, 0, [0, 1]) == Score(5, 2, 0);
  }

  lemma OneSuffix(s: string)
    requires |s| == 2 && s[1] != SUFCHAR
    ensures SuffixesFrom(s, 0) == [s]
  {
    assert SuffixEnd(s, 0) == 2;
    assert SuffixesFrom(s, 2) == [] && s[0..2] == s;
  }
}
