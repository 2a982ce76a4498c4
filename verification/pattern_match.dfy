/** The backtracking matcher (lstrlib.c). */
module PatternMatch {
  import opened PatternSyntax
  import opened PatternMeaning

  datatype Result = Fail | Raise | Match(e: int)

  /** What a result stands for; captures are those that the matcher has then. */
  function OutcomeOf(r: Result, caps: seq<Cap>): Outcome {
    match r
    case Fail => No
    case Raise => Error
    case Match(e) => Yes(e, caps)
  }

  /** Captures lie inside the source, before place s. */
  predicate Inside(caps: seq<Cap>, s: int) {
    forall i :: 0 <= i < |caps| ==>
      && 0 <= caps[i].init <= s
      && (caps[i].len == UNFINISHED || caps[i].len == POSITION
          || (caps[i].len >= 0 && caps[i].init + caps[i].len <= s))
  }

  class MatchState {
    const src: string
    const pat: string
    var level: nat
    const capture: array<Cap>

    ghost predicate Valid()
      reads this
    {
      capture.Length == MAXCAPTURES && level <= MAXCAPTURES
    }

    ghost function Caps(): seq<Cap>
      requires Valid()
      reads this, capture
    {
      capture[..level]
    }

    constructor (source: string, pattern: string)
      ensures Valid() && Caps() == [] && src == source && pat == pattern && fresh(capture)
    {
      src, pat, level := source, pattern, 0;
      capture := new Cap[MAXCAPTURES](_ => Cap(0, 0));
    }

    /** The new state and result are right for the captures and the place before. */
    ghost predicate Done(caps: seq<Cap>, s: int, p: int, ks: seq<Choice>, r: Result)
      requires Valid() && 0 <= s && 0 <= p <= |pat|
      reads this, capture
    {
      && Right(src, pat, caps, s, p, ks, OutcomeOf(r, Caps()))
      && (r == Fail ==> Caps() == caps)
      && (r.Match? ==> s <= r.e <= |src| && Inside(Caps(), r.e))
    }

    ghost predicate Ready(s: int, p: int)
      reads this, capture
    {
      Valid() && 0 <= s <= |src| && 0 <= p <= |pat| && Inside(Caps(), s)
    }

    /** match */
    method DoMatch(s: int, p: int) returns (r: Result, ghost ks: seq<Choice>)
      requires Ready(s, p)
      modifies this`level, capture
      ensures Valid() && Done(old(Caps()), s, p, ks, r)
      decreases |pat| - p, 4
    {
      hide Right, Meaning, Inside, ItemAt, Single;
      ItemMoves(pat, p);
      var i := ItemAt(pat, p);
      ks := [];
      if IsRepeated(i) {
        r, ks := Repetition(s, p, i);
      } else if i.Open? {
        r, ks := StartCapture(s, p, i);
      } else if i.Close? {
        r, ks := EndCapture(s, p, i);
      } else {
        r, ks := GoOn(s, p, i);
      }
    }

    /** Items that only move on in the source. */
    method GoOn(s: int, p: int, i: Item) returns (r: Result, ghost ks: seq<Choice>)
      requires Ready(s, p) && i == ItemAt(pat, p) && !IsRepeated(i) && !i.Open? && !i.Close?
      modifies this`level, capture
      ensures Valid() && Done(old(Caps()), s, p, ks, r)
      decreases |pat| - p, 3
    {
      hide Right, Meaning, ItemAt, Single, InSet, InClass, AtFrontier;
      ItemMoves(pat, p);
      ghost var caps := Caps();
      ks := [];
      match i
      case End =>
        StopRight(src, pat, caps, s, p);
        r := Match(s);
      case EndAnchor =>
        StopRight(src, pat, caps, s, p);
        r := if s == |src| then Match(s) else Fail;
      case Malformed =>
        StopRight(src, pat, caps, s, p);
        r := Raise;
      case Balance(b, e, next) =>
        var s' := MatchBalance(s, b, e);
        if s' == -1 {
          StopRight(src, pat, caps, s, p);
          r := Fail;
        } else {
          r, ks := Continue(s, p, s', next);
        }
      case Frontier(lb, next) =>
        var before := MatchBracketClass(if s == 0 then NUL else At(src, s - 1), pat, lb, next - 1);
        var here := MatchBracketClass(At(src, s), pat, lb, next - 1);
        FrontierIs(src, pat, s, lb, next);
        if before || !here {
          StopRight(src, pat, caps, s, p);
          r := Fail;
        } else {
          r, ks := Continue(s, p, s, next);
        }
      case BackRef(_, _) =>
        r, ks := GoBack(s, p, i);
      case One(next) =>
        var m := SingleMatch(s, p, next);
        if !m {
          StopRight(src, pat, caps, s, p);
          r := Fail;
        } else {
          SingleInside(src, pat, s, p, next);
          r, ks := Continue(s, p, s + 1, next);
        }
    }

    /** The text of a capture again. */
    method GoBack(s: int, p: int, i: Item) returns (r: Result, ghost ks: seq<Choice>)
      requires Ready(s, p) && i == ItemAt(pat, p) && i.BackRef?
      modifies this`level, capture
      ensures Valid() && Done(old(Caps()), s, p, ks, r)
      decreases |pat| - p, 2
    {
      ItemMoves(pat, p);
      ghost var caps := Caps();
      ks := [];
      hide Right, Meaning, ItemAt;
      var l := i.l;
      if !(0 <= l < level) || capture[l].len == UNFINISHED {
        StopRight(src, pat, caps, s, p);
        r := Raise;
      } else {
        var s' := MatchCapture(s, l);
        if s' == -1 {
          StopRight(src, pat, caps, s, p);
          r := Fail;
        } else {
          r, ks := Continue(s, p, s', i.next);
        }
      }
    }

    /** Repeated items: ?, *, +, - */
    method Repetition(s: int, p: int, i: Item) returns (r: Result, ghost ks: seq<Choice>)
      requires Ready(s, p) && i == ItemAt(pat, p) && IsRepeated(i)
      modifies this`level, capture
      ensures Valid() && Done(old(Caps()), s, p, ks, r)
      decreases |pat| - p, 2
    {
      ItemMoves(pat, p);
      ghost var caps := Caps();
      hide Right, Meaning, ItemAt, Single, Repeated, First, Never, Tried, Inside;
      ghost var k := 0;
      if i.Minus? {
        r, k, ks := MinExpand(s, p, i.ep);
        FewDone(src, pat, caps, s, p, k, ks, OutcomeOf(r, Caps()));
        ks := [Few(k)] + ks;
      } else if i.Star? {
        r, k, ks := MaxExpand(s, p, i.ep);
        StarDone(src, pat, caps, s, p, k, ks, OutcomeOf(r, Caps()));
        ks := [Many(k)] + ks;
      } else if i.Plus? {
        r, ks := OneOrMore(s, p, i);
      } else {
        r, ks := ZeroOrOne(s, p, i);
      }
    }

    method OneOrMore(s: int, p: int, i: Item) returns (r: Result, ghost ks: seq<Choice>)
      requires Ready(s, p) && i == ItemAt(pat, p) && i.Plus?
      modifies this`level, capture
      ensures Valid() && Done(old(Caps()), s, p, ks, r)
      decreases |pat| - p, 1
    {
      ItemMoves(pat, p);
      ghost var caps := Caps();
      hide Right, Meaning, ItemAt, Single, Repeated, First, Never, Tried, Inside;
      var m := SingleMatch(s, p, i.ep);
      if !m {
        PlusFails(src, pat, caps, s, p);
        return Fail, [];
      }
      OneMore(src, pat, s, p, i.ep, caps);
      ghost var k;
      r, k, ks := MaxExpand(s + 1, p, i.ep);
      PlusDone(src, pat, caps, s, p, k, ks, OutcomeOf(r, Caps()));
      ks := [Many(k + 1)] + ks;
    }

    method ZeroOrOne(s: int, p: int, i: Item) returns (r: Result, ghost ks: seq<Choice>)
      requires Ready(s, p) && i == ItemAt(pat, p) && i.Optional?
      modifies this`level, capture
      ensures Valid() && Done(old(Caps()), s, p, ks, r)
      decreases |pat| - p, 1
    {
      ItemMoves(pat, p);
      ghost var caps := Caps();
      hide Right, Meaning, ItemAt, Single, Repeated, First, Never, Inside;
      var m := SingleMatch(s, p, i.ep);
      if m {
        OneMore(src, pat, s, p, i.ep, caps);
        r, ks := DoMatch(s + 1, i.next);
        if r != Fail {
          OptionalDone(src, pat, caps, s, p, 1, ks, OutcomeOf(r, Caps()), m);
          ks := [Many(1)] + ks;
          return;
        }
      }
      r, ks := DoMatch(s, i.next);
      OptionalDone(src, pat, caps, s, p, 0, ks, OutcomeOf(r, Caps()), m);
      ks := [Many(0)] + ks;
    }

    /** max_expand: k repetitions of the item are the most after which the rest does not fail. */
    method MaxExpand(s: int, p: int, ep: int) returns (r: Result, ghost k: nat, ghost ks: seq<Choice>)
      requires Ready(s, p) && p < ep < |pat|
      modifies this`level, capture
      ensures Valid() && Expanded(old(Caps()), s, p, ep, r, k, ks)
        && Tried(src, pat, old(Caps()), s, p, ep, if r == Fail then -1 else k, -1)
      decreases |pat| - p, 0
    {
      ghost var caps := Caps();
      hide Right, Meaning, Single, Repeated, Never, Inside, Tried;
      var i: int := CountMax(s, p, ep, caps);
      while i >= 0
        invariant Valid() && Caps() == caps && -1 <= i && s + i <= |src| && Tried(src, pat, caps, s, p, ep, i, -1)
          && (i >= 0 ==> Repeated(src, pat, s, p, ep, i))
        decreases i
      {
        InsideLater(caps, s, s + i);
        r, ks := DoMatch(s + i, ep + 1);
        if r != Fail {
          k := i;
          return;
        }
        TriedOne(src, pat, caps, s, p, ep, i);
        i := i - 1;
      }
      r, k, ks := Fail, 0, [];
    }

    /** The first loop of max_expand. */
    method CountMax(s: int, p: int, ep: int, ghost caps: seq<Cap>) returns (i: nat)
      requires 0 <= s <= |src| && 0 <= p < ep < |pat|
      ensures s + i <= |src| && Repeated(src, pat, s, p, ep, i) && Tried(src, pat, caps, s, p, ep, i, -1)
    {
      hide Single, Never;
      i := 0;
      var m := SingleMatch(s, p, ep);
      while m
        invariant s + i <= |src| && Repeated(src, pat, s, p, ep, i) && m == Single(src, pat, s + i, p, ep)
        decreases |src| - s - i
      {
        SingleInside(src, pat, s + i, p, ep);
        i := i + 1;
        m := SingleMatch(s + i, p, ep);
      }
    }

    /** min_expand: k repetitions are the fewest. */
    method MinExpand(s0: int, p: int, ep: int) returns (r: Result, ghost k: nat, ghost ks: seq<Choice>)
      requires Ready(s0, p) && p < ep < |pat|
      modifies this`level, capture
      ensures Valid() && Expanded(old(Caps()), s0, p, ep, r, k, ks)
        && Tried(src, pat, old(Caps()), s0, p, ep, -1, if r == Fail then -1 else k)
      decreases |pat| - p, 0
    {
      ghost var caps := Caps();
      hide Right, Meaning, Single, Repeated, Never, Inside, Tried;
      var s := s0;
      k := 0;
      NoneTried(src, pat, caps, s0, p, ep);
      while true
        invariant Valid() && Caps() == caps && s == s0 + k <= |src| && Tried(src, pat, caps, s0, p, ep, -1, k)
          && Repeated(src, pat, s0, p, ep, k)
        decreases |src| - s
      {
        InsideLater(caps, s0, s);
        r, ks := DoMatch(s, ep + 1);
        if r != Fail {
          return;
        }
        var m := SingleMatch(s, p, ep);
        TriedNext(src, pat, caps, s0, p, ep, k, m);
        if m {
          s, k := s + 1, k + 1;
        } else {
          return Fail, 0, [];
        }
      }
    }

    /** What the two loops leave when they stop at k repetitions. */
    ghost predicate Expanded(caps: seq<Cap>, s: int, p: int, ep: int, r: Result, k: nat, ks: seq<Choice>)
      requires Valid() && 0 <= s && 0 <= p < ep < |pat|
      reads this, capture
    {
      && (r == Fail ==> Caps() == caps)
      && (r != Fail ==> Repeated(src, pat, s, p, ep, k) && Right(src, pat, caps, s + k, ep + 1, ks,
        OutcomeOf(r, Caps())))
      && (r.Match? ==> s <= r.e <= |src| && Inside(Caps(), r.e))
    }

    method Continue(s: int, p: int, s': int, next: int) returns (r: Result, ghost ks: seq<Choice>)
      requires Ready(s, p) && s <= s' <= |src| && p < next <= |pat| && !IsRepeated(ItemAt(pat, p))
        && Act(src, pat, Caps(), s, p) == Go(Caps(), s', next)
      modifies this`level, capture
      ensures Valid() && Done(old(Caps()), s, p, ks, r)
      decreases |pat| - p, 1
    {
      hide Right, Act, ItemAt;
      InsideLater(Caps(), s, s');
      r, ks := DoMatch(s', next);
      GoRight(src, pat, old(Caps()), s, p, ks, OutcomeOf(r, Caps()));
    }

    /** singlematch and the test that there is a character */
    method SingleMatch(s: int, p: int, ep: int) returns (b: bool)
      requires 0 <= s <= |src| && 0 <= p < ep <= |pat|
      ensures b == Single(src, pat, s, p, ep)
    {
      hide InSet, InClass;
      if s == |src| {
        b := false;
      } else if pat[p] == '.' {
        b := true;
      } else if pat[p] == '%' {
        b := InClass(src[s], At(pat, p + 1));
      } else if pat[p] == '[' {
        b := MatchBracketClass(src[s], pat, p, ep - 1);
      } else {
        b := src[s] == pat[p];
      }
    }

    method MatchBalance(s: int, b: char, e: char) returns (r: int)
      requires 0 <= s <= |src|
      ensures r == Balanced(src, s, b, e)
    {
      if s == |src| || src[s] != b {
        return -1;
      }
      var i, cont := s + 1, 1;
      while i < |src|
        invariant s < i <= |src| && BalanceEnd(src, s + 1, b, e, 1) == BalanceEnd(src, i, b, e, cont)
      {
        if src[i] == e {
          cont := cont - 1;
          if cont == 0 {
            return i + 1;
          }
        } else if src[i] == b {
          cont := cont + 1;
        }
        i := i + 1;
      }
      return -1;
    }

    /** match_capture, for a finished capture */
    method MatchCapture(s: int, l: nat) returns (r: int)
      requires Ready(s, 0) && l < level && Caps()[l].len != UNFINISHED
      ensures var c := Caps()[l];
        r == if c.len < 0 || |src| - s < c.len || !SameText(src, c.init, s, c.len) then -1 else s + c.len
      ensures r == -1 || s <= r <= |src|
    {
      var c := capture[l];
      assert c == Caps()[l];
      if c.len < 0 || |src| - s < c.len {
        return -1;
      }
      var i := 0;
      while i < c.len
        invariant 0 <= i <= c.len && SameText(src, c.init, s, i)
      {
        if At(src, c.init + i) != At(src, s + i) {
          assert At(src, c.init + i) != At(src, c.init + i - c.init + s);
          return -1;
        }
        i := i + 1;
      }
      return s + c.len;
    }

    method StartCapture(s: int, p: int, i: Item) returns (r: Result, ghost ks: seq<Choice>)
      requires Ready(s, p) && i == ItemAt(pat, p) && i.Open?
      modifies this`level, capture
      ensures Valid() && Done(old(Caps()), s, p, ks, r)
      decreases |pat| - p, 2
    {
      ItemMoves(pat, p);
      ghost var caps := Caps();
      hide Right, Meaning, ItemAt;
      WhatOpens(pat, p);
      if level >= MAXCAPTURES {
        StopRight(src, pat, caps, s, p);
        return Raise, [];
      }
      capture[level] := Cap(s, i.what);
      level := level + 1;
      assert Caps() == caps + [Cap(s, i.what)];
      r, ks := DoMatch(s, i.next);
      GoRight(src, pat, caps, s, p, ks, OutcomeOf(r, Caps()));
      if r == Fail {
        level := level - 1;
        assert Caps() == (caps + [Cap(s, i.what)])[..|caps|];
      }
    }

    method EndCapture(s: int, p: int, i: Item) returns (r: Result, ghost ks: seq<Choice>)
      requires Ready(s, p) && i == ItemAt(pat, p) && i.Close?
      modifies this`level, capture
      ensures Valid() && Done(old(Caps()), s, p, ks, r)
      decreases |pat| - p, 2
    {
      ItemMoves(pat, p);
      ghost var caps := Caps();
      hide Right, Meaning, ItemAt;
      var l := CaptureToClose();
      if l == -1 {
        StopRight(src, pat, caps, s, p);
        return Raise, [];
      }
      assert capture[l] == caps[l];
      ghost var caps' := caps[l := Cap(caps[l].init, s - caps[l].init)];
      capture[l] := Cap(capture[l].init, s - capture[l].init);
      assert Caps() == caps';
      r, ks := DoMatch(s, i.next);
      GoRight(src, pat, caps, s, p, ks, OutcomeOf(r, Caps()));
      if r == Fail {
        assert Caps()[l] == caps'[l];
        capture[l] := Cap(capture[l].init, UNFINISHED);
        assert Caps() == caps'[l := caps[l]] == caps;
      }
    }

    method CaptureToClose() returns (l: int)
      requires Valid()
      ensures l == ToClose(Caps())
    {
      l := level - 1;
      assert Caps()[..l + 1] == Caps();
      while l >= 0
        invariant -1 <= l < level && ToClose(Caps()) == ToClose(Caps()[..l + 1])
      {
        assert Caps()[..l + 1][..l] == Caps()[..l] && Caps()[..l + 1][l] == capture[l];
        if capture[l].len == UNFINISHED {
          return;
        }
        l := l - 1;
      }
    }
  }

  /** The search of string.find and string.match, for a pattern that is not plain text. */
  datatype Found = NotFound | Raised | Found(start: int, e: int, caps: seq<Cap>)

  /** A pattern that begins with ^ matches only at the start of the search. */
  predicate Anchored(pat: string) { At(pat, 0) == '^' }

  function Body(pat: string): int { if Anchored(pat) then 1 else 0 }

  method Find(src: string, pat: string, init: nat) returns (f: Found, ghost at: int, ghost ks: seq<Choice>)
    requires init <= |src|
    ensures f == NotFound ==> forall s :: init <= s <= |src| && (Anchored(pat) ==> s == init) ==>
      Never(src, pat, [], s, Body(pat))
    ensures f != NotFound ==> init <= at <= |src| && (forall s :: init <= s < at ==>
      Never(src, pat, [], s, Body(pat))) && (Anchored(pat) ==> at == init)
    ensures f == Raised ==> First(src, pat, [], at, Body(pat), ks, Error)
    ensures f.Found? ==> f.start == at <= f.e <= |src| && Inside(f.caps, f.e) && First(src, pat, [], at, Body(pat),
      ks, Yes(f.e, f.caps))
  {
    hide Meaning, Never, First;
    var ms := new MatchState(src, pat);
    var anchor, p := Anchored(pat), Body(pat);
    var s1 := init;
    while true
      invariant init <= s1 <= |src| && ms.Valid() && fresh(ms) && fresh(ms.capture) && ms.src == src && ms.pat == pat
      invariant (forall s :: init <= s < s1 ==> Never(src, pat, [], s, p)) && (anchor ==> s1 == init)
      decreases |src| - s1
    {
      ms.level := 0;
      assert ms.Caps() == [];
      var r;
      r, ks := ms.DoMatch(s1, p);
      at := s1;
      match r {
        case Match(e) =>
          f := Found(s1, e, ms.capture[..ms.level]);
          return;
        case Raise =>
          f := Raised;
          return;
        case Fail =>
      }
      if s1 == |src| || anchor {
        f := NotFound;
        return;
      }
      s1 := s1 + 1;
    }
  }

  lemma InsideLater(caps: seq<Cap>, s: int, s': int)
    requires Inside(caps, s) && s <= s'
    ensures Inside(caps, s')
  {
  }

  lemma FrontierIs(src: string, pat: string, s: int, lb: int, ep: int)
    requires 0 <= lb < ep <= |pat|
    ensures AtFrontier(src, pat, s, lb, ep) <==>
      !InSet(pat, lb, ep - 1, if s == 0 then NUL else At(src, s - 1)) && InSet(pat, lb, ep - 1, At(src, s))
  {
  }

  lemma WhatOpens(pat: string, p: int)
    requires 0 <= p <= |pat| && ItemAt(pat, p).Open?
    ensures ItemAt(pat, p).what == UNFINISHED || ItemAt(pat, p).what == POSITION
  {
  }

  // ------------------------------------------------------------- repetitions

  /** More than hi repetitions, or fewer than lo, do not lead anywhere (-1 for lo: more than hi
      only; -1 for both: any number). */
  ghost predicate Tried(src: string, pat: string, caps: seq<Cap>, s: int, p: int, ep: int, hi: int, lo: int)
    requires 0 <= s && 0 <= p < ep < |pat|
  {
    forall j: nat :: Repeated(src, pat, s, p, ep, j) && (if lo == -1 then j > hi else j < lo) ==>
        Never(src, pat, caps, s + j, ep + 1)
  }

  lemma SingleInside(src: string, pat: string, s: int, p: int, ep: int)
    requires 0 <= p < ep <= |pat| && 0 <= s && Single(src, pat, s, p, ep)
    ensures s < |src|
  {
  }

  lemma TriedOne(src: string, pat: string, caps: seq<Cap>, s: int, p: int, ep: int, i: nat)
    requires 0 <= s && 0 <= p < ep < |pat| && Tried(src, pat, caps, s, p, ep, i, -1)
      && Right(src, pat, caps, s + i, ep + 1, [], No) && Repeated(src, pat, s, p, ep, i)
    ensures Tried(src, pat, caps, s, p, ep, i - 1, -1) && (i > 0 ==> Repeated(src, pat, s, p, ep, i - 1))
  {
    hide Never, Single;
  }

  lemma NoneTried(src: string, pat: string, caps: seq<Cap>, s: int, p: int, ep: int)
    requires 0 <= s && 0 <= p < ep < |pat|
    ensures Tried(src, pat, caps, s, p, ep, -1, 0) && Repeated(src, pat, s, p, ep, 0)
  {
  }

  lemma TriedNext(src: string, pat: string, caps: seq<Cap>, s: int, p: int, ep: int, k: nat, m: bool)
    requires 0 <= s && 0 <= p < ep < |pat| && Tried(src, pat, caps, s, p, ep, -1, k)
      && Never(src, pat, caps, s + k, ep + 1)
    requires Repeated(src, pat, s, p, ep, k) && m == Single(src, pat, s + k, p, ep)
    ensures if m then s + k < |src| && Tried(src, pat, caps, s, p, ep, -1, k + 1)
      && Repeated(src, pat, s, p, ep, k + 1) else Tried(src, pat, caps, s, p, ep, -1, -1)
  {
    if m {
      SingleInside(src, pat, s + k, p, ep);
    }
    hide Never, Single;
  }

  lemma OneMore(src: string, pat: string, s: int, p: int, ep: int, caps: seq<Cap>)
    requires 0 <= s && 0 <= p < ep <= |pat| && Single(src, pat, s, p, ep) && Inside(caps, s)
    ensures s < |src| && Repeated(src, pat, s, p, ep, 1) && Inside(caps, s + 1)
  {
  }

  lemma StarDone(src: string, pat: string, caps: seq<Cap>, s: int, p: int, k: nat, ks: seq<Choice>, o: Outcome)
    requires 0 <= s && 0 <= p <= |pat| && ItemAt(pat, p).Star?
    requires var i := ItemAt(pat, p);
      && 0 <= p < i.ep == i.next - 1 < |pat| && Tried(src, pat, caps, s, p, i.ep, if o == No then -1 else k, -1)
      && (o != No ==> Repeated(src, pat, s, p, i.ep, k) && Right(src, pat, caps, s + k, i.next, ks, o))
    ensures Right(src, pat, caps, s, p, [Many(k)] + ks, o)
  {
    hide Repeated, Never, Meaning, ItemAt;
    ManyRight(src, pat, caps, s, p, k, ks, o);
  }

  lemma FewDone(src: string, pat: string, caps: seq<Cap>, s: int, p: int, k: nat, ks: seq<Choice>, o: Outcome)
    requires 0 <= s && 0 <= p <= |pat| && ItemAt(pat, p).Minus?
    requires var i := ItemAt(pat, p);
      && 0 <= p < i.ep == i.next - 1 < |pat| && Tried(src, pat, caps, s, p, i.ep, -1, if o == No then -1 else k)
      && (o != No ==> Repeated(src, pat, s, p, i.ep, k) && Right(src, pat, caps, s + k, i.next, ks, o))
    ensures Right(src, pat, caps, s, p, [Few(k)] + ks, o)
  {
    hide Repeated, Never, Meaning, ItemAt;
    FewRight(src, pat, caps, s, p, k, ks, o);
  }

  lemma PlusFails(src: string, pat: string, caps: seq<Cap>, s: int, p: int)
    requires 0 <= s && 0 <= p <= |pat| && ItemAt(pat, p).Plus?
    requires var i := ItemAt(pat, p); 0 <= p < i.ep == i.next - 1 < |pat| && !Single(src, pat, s, p, i.ep)
    ensures Right(src, pat, caps, s, p, [], No)
  {
    hide Never, Meaning, ItemAt, Single;
    assert forall j: nat :: Repeated(src, pat, s, p, ItemAt(pat, p).ep, j) ==> j == 0;
    hide Repeated;
    ManyRight(src, pat, caps, s, p, 0, [], No);
  }

  lemma PlusDone(src: string, pat: string, caps: seq<Cap>, s: int, p: int, k: nat, ks: seq<Choice>, o: Outcome)
    requires 0 <= s && 0 <= p <= |pat| && ItemAt(pat, p).Plus?
    requires var i := ItemAt(pat, p);
      && 0 <= p < i.ep == i.next - 1 < |pat| && Single(src, pat, s, p, i.ep)
      && Tried(src, pat, caps, s + 1, p, i.ep, if o == No then -1 else k, -1)
      && (o != No ==> Repeated(src, pat, s + 1, p, i.ep, k) && Right(src, pat, caps, s + 1 + k, i.next, ks, o))
    ensures Right(src, pat, caps, s, p, [Many(k + 1)] + ks, o)
  {
    hide Never, Meaning, ItemAt, Single;
    var i := ItemAt(pat, p);
    forall j: nat | j >= 1 ensures Repeated(src, pat, s, p, i.ep, j) == Repeated(src, pat, s + 1, p, i.ep, j - 1) {
    }
    forall j: nat | Repeated(src, pat, s, p, i.ep, j) && Allowed(i, j) && (o == No || j > k + 1)
        ensures Never(src, pat, caps, s + j, i.next) {
      assert Repeated(src, pat, s + 1, p, i.ep, j - 1) && s + 1 + (j - 1) == s + j;
    }
    ManyRight(src, pat, caps, s, p, k + 1, ks, o);
  }

  lemma OptionalDone(src: string, pat: string, caps: seq<Cap>, s: int, p: int, k: nat, ks: seq<Choice>, o: Outcome,
      m: bool)
    requires 0 <= s && 0 <= p <= |pat| && ItemAt(pat, p).Optional?
    requires var i := ItemAt(pat, p);
      && 0 <= p < i.ep == i.next - 1 < |pat| && m == Single(src, pat, s, p, i.ep) && k <= 1
      && (k == 0 && m ==> Never(src, pat, caps, s + 1, i.next)) && (k == 1 ==> m && o != No)
      && Right(src, pat, caps, s + k, i.next, ks, o)
    ensures Right(src, pat, caps, s, p, [Many(k)] + ks, o)
  {
    hide Never, Meaning, ItemAt, Single;
    var i := ItemAt(pat, p);
    assert Repeated(src, pat, s, p, i.ep, k);
    forall j: nat | Repeated(src, pat, s, p, i.ep, j) && Allowed(i, j) && (o == No || j > k)
        ensures Never(src, pat, caps, s + j, i.next) {
      assert j == 1 ==> Single(src, pat, s, p, i.ep);
    }
    ManyRight(src, pat, caps, s, p, k, ks, o);
  }
}
