/** What a pattern means (section 5.4.1 of the Lua 5.1 manual): which texts it matches once it
    has been chosen how often each repeated item is to match. */
module PatternMeaning {
  import opened Shared
  import opened PatternSyntax

  const UNFINISHED := -1
  const POSITION := -2
  const MAXCAPTURES := 32

  datatype Cap = Cap(init: int, len: int)

  // -------------------------------------------------------------------- items

  /** The closing bracket of a set whose next character is at i, or -1. */
  function SetEnd(pat: string, i: int): (r: int)
    requires 0 <= i
    ensures r == -1 || i < r < |pat|
    decreases |pat| - i
  {
    if At(pat, i) == NUL then -1 else
    var j := if At(pat, i) == '%' && At(pat, i + 1) != NUL then i + 2 else i + 1;
    if At(pat, j) == ']' then j else SetEnd(pat, j)
  }

  /** classend: the place after the single character item at p, or -1 when it is malformed. */
  function ClassEnd(pat: string, p: int): (r: int)
    requires 0 <= p < |pat|
    ensures r == -1 || p < r <= |pat|
  {
    if pat[p] == '%' then (if At(pat, p + 1) == NUL then -1 else p + 2)
    else if pat[p] == '[' then
      var e := SetEnd(pat, if At(pat, p + 1) == '^' then p + 2 else p + 1);
      if e == -1 then -1 else e + 1
    else p + 1
  }

  /** Items with the place where the pattern goes on; ep is where a single character item ends. */
  datatype Item =
    | End | EndAnchor | Malformed
    | Open(what: int, next: int) | Close(next: int)
    | Balance(b: char, e: char, next: int) | Frontier(lb: int, next: int) | BackRef(l: int, next: int)
    | One(next: int) | Optional(ep: int, next: int) | Star(ep: int, next: int) | Plus(ep: int,
      next: int) | Minus(ep: int, next: int)

  function SingleItem(pat: string, p: int): (i: Item)
    requires 0 <= p < |pat|
  {
    var ep := ClassEnd(pat, p);
    if ep == -1 then Malformed else
    match At(pat, ep)
    case '?' => Optional(ep, ep + 1)
    case '*' => Star(ep, ep + 1)
    case '+' => Plus(ep, ep + 1)
    case '-' => Minus(ep, ep + 1)
    case _ => One(ep)
  }

  function ItemAt(pat: string, p: int): Item
    requires 0 <= p <= |pat|
  {
    if At(pat, p) == NUL then End else
    var c := At(pat, p + 1);
    if pat[p] == '(' then (if c == ')' then Open(POSITION, p + 2) else Open(UNFINISHED, p + 1))
    else if pat[p] == ')' then Close(p + 1)
    else if pat[p] == '%' && c == 'b' then
      (if At(pat, p + 2) == NUL || At(pat, p + 3) == NUL then Malformed else Balance(pat[p + 2], pat[p + 3], p + 4))
    else if pat[p] == '%' && c == 'f' then
      (if At(pat, p + 2) != '[' then Malformed else
       var ep := ClassEnd(pat, p + 2);
       if ep == -1 then Malformed else Frontier(p + 2, ep))
    else if pat[p] == '%' && IsDigit(c) then BackRef(c as int - '1' as int, p + 2)
    else if pat[p] == '$' && c == NUL then EndAnchor
    else SingleItem(pat, p)
  }

  predicate Goes(i: Item) { !i.End? && !i.EndAnchor? && !i.Malformed? }

  lemma ItemMoves(pat: string, p: int)
    requires 0 <= p <= |pat|
    ensures var i := ItemAt(pat, p);
      && (Goes(i) ==> p < i.next <= |pat|)
      && (i.Optional? || i.Star? || i.Plus? || i.Minus? ==>
        p < i.ep == i.next - 1 && i.ep == ClassEnd(pat, p) && p < |pat|)
      && (i.One? ==> p < |pat| && i.next == ClassEnd(pat, p))
      && (i.Frontier? ==> p < i.lb < i.next && i.lb == p + 2)
  {
  }

  // ------------------------------------------------------------- single steps

  /** singlematch, at place s of the source */
  predicate Single(src: string, pat: string, s: int, p: int, ep: int)
    requires 0 <= p < ep <= |pat| && 0 <= s
  {
    && s < |src|
    && if pat[p] == '.' then true
       else if pat[p] == '%' then InClass(src[s], At(pat, p + 1))
       else if pat[p] == '[' then InSet(pat, p, ep - 1, src[s])
       else src[s] == pat[p]
  }

  /** k characters in a row. */
  predicate Repeated(src: string, pat: string, s: int, p: int, ep: int, k: nat)
    requires 0 <= p < ep <= |pat| && 0 <= s
  {
    forall i :: s <= i < s + k ==> Single(src, pat, i, p, ep)
  }

  function BalanceEnd(src: string, i: int, b: char, e: char, cont: int): (r: int)
    requires 0 <= i
    ensures r == -1 || i < r <= |src|
    decreases |src| - i
  {
    if i >= |src| then -1
    else if src[i] == e then (if cont == 1 then i + 1 else BalanceEnd(src, i + 1, b, e, cont - 1))
    else BalanceEnd(src, i + 1, b, e, if src[i] == b then cont + 1 else cont)
  }

  /** matchbalance: the end of the text that starts with b and closes with the e that balances it. */
  function Balanced(src: string, s: int, b: char, e: char): (r: int)
    requires 0 <= s
    ensures r == -1 || s < r <= |src|
  {
    if s >= |src| || src[s] != b then -1 else BalanceEnd(src, s + 1, b, e, 1)
  }

  predicate AtFrontier(src: string, pat: string, s: int, lb: int, ep: int)
    requires 0 <= lb < ep <= |pat|
  {
    !InSet(pat, lb, ep - 1, if s == 0 then NUL else At(src, s - 1)) && InSet(pat, lb, ep - 1, At(src, s))
  }

  predicate SameText(src: string, a: int, b: int, n: int) {
    forall i :: a <= i < a + n ==> At(src, i) == At(src, i - a + b)
  }

  /** The last capture that has not been closed, or -1. */
  function ToClose(caps: seq<Cap>): (r: int)
    ensures -1 <= r < |caps| && (r >= 0 ==> caps[r].len == UNFINISHED) && forall i :: r < i < |caps| ==>
      caps[i].len != UNFINISHED
  {
    if caps == [] then -1 else if caps[|caps| - 1].len == UNFINISHED then |caps| - 1 else ToClose(caps[..|caps| - 1])
  }

  // ------------------------------------------------------------------ meaning

  /** How often a repeated item is to match; the items that prefer many repetitions and those
      that prefer few are told apart. */
  datatype Choice = Many(k: nat) | Few(k: nat)

  datatype Outcome = No | Error | Yes(e: int, caps: seq<Cap>)

  function If(b: bool, o: Outcome): Outcome { if b then o else No }

  /** What matching the pattern from p at place s leads to under the choices ks, all of which
      have to be used. */
  function Meaning(src: string, pat: string, caps: seq<Cap>, s: int, p: int, ks: seq<Choice>): Outcome
    requires 0 <= s && 0 <= p <= |pat|
    decreases |pat| - p
  {
    ItemMoves(pat, p);
    match ItemAt(pat, p)
    case End => If(ks == [], Yes(s, caps))
    case EndAnchor => If(ks == [] && s == |src|, Yes(s, caps))
    case Malformed => If(ks == [], Error)
    case Open(what, next) =>
      if |caps| >= MAXCAPTURES then If(ks == [], Error) else Meaning(src, pat, caps + [Cap(s, what)], s, next, ks)
    case Close(next) =>
      var l := ToClose(caps);
      if l == -1 then If(ks == [], Error)
      else Meaning(src, pat, caps[l := Cap(caps[l].init, s - caps[l].init)], s, next, ks)
    case Balance(b, e, next) =>
      var s' := Balanced(src, s, b, e);
      if s' == -1 then No else Meaning(src, pat, caps, s', next, ks)
    case Frontier(lb, next) => if AtFrontier(src, pat, s, lb, next) then Meaning(src, pat, caps, s, next, ks) else No
    case BackRef(l, next) =>
      if !(0 <= l < |caps|) || caps[l].len == UNFINISHED then If(ks == [], Error)
      else if caps[l].len < 0 || |src| - s < caps[l].len || !SameText(src, caps[l].init, s, caps[l].len) then No
      else Meaning(src, pat, caps, s + caps[l].len, next, ks)
    case One(next) => if Single(src, pat, s, p, next) then Meaning(src, pat, caps, s + 1, next, ks) else No
    case Optional(ep, next) => if ks != [] && ks[0].Many? && ks[0].k <= 1 then Repeats(src, pat, caps, s, p, ep, ks)
      else No
    case Star(ep, next) => if ks != [] && ks[0].Many? then Repeats(src, pat, caps, s, p, ep, ks) else No
    case Plus(ep, next) => if ks != [] && ks[0].Many? && ks[0].k >= 1 then Repeats(src, pat, caps, s, p, ep, ks) else No
    case Minus(ep, next) => if ks != [] && ks[0].Few? then Repeats(src, pat, caps, s, p, ep, ks) else No
  }

  function Repeats(src: string, pat: string, caps: seq<Cap>, s: int, p: int, ep: int, ks: seq<Choice>): Outcome
    requires 0 <= s && 0 <= p < ep < |pat| && ks != []
    decreases |pat| - p, 0
  {
    if Repeated(src, pat, s, p, ep, ks[0].k) then Meaning(src, pat, caps, s + ks[0].k, ep + 1, ks[1..]) else No
  }

  // ------------------------------------------------------------------ priority

  predicate Preferred(a: Choice, b: Choice) { (a.Many? && b.Many? && a.k > b.k) || (a.Few? && b.Few? && a.k < b.k) }

  /** js comes before ks: at the first difference it has the preferred choice. */
  predicate Before(js: seq<Choice>, ks: seq<Choice>)
    decreases |js|
  {
    js != [] && ks != [] && if js[0] == ks[0] then Before(js[1..], ks[1..]) else Preferred(js[0], ks[0])
  }

  /** No choices lead anywhere. */
  ghost predicate Never(src: string, pat: string, caps: seq<Cap>, s: int, p: int)
    requires 0 <= s && 0 <= p <= |pat|
  {
    forall ks :: Meaning(src, pat, caps, s, p, ks) == No
  }

  /** ks are the first choices that do not fail, and they lead to o. */
  ghost predicate First(src: string, pat: string, caps: seq<Cap>, s: int, p: int, ks: seq<Choice>, o: Outcome)
    requires 0 <= s && 0 <= p <= |pat|
  {
    o != No && Meaning(src, pat, caps, s, p, ks) == o && forall js :: Before(js, ks) ==>
      Meaning(src, pat, caps, s, p, js) == No
  }

  /** The outcome o is right: that of the first choices that do not fail, or a failure of all. */
  ghost predicate Right(src: string, pat: string, caps: seq<Cap>, s: int, p: int, ks: seq<Choice>, o: Outcome)
    requires 0 <= s && 0 <= p <= |pat|
  {
    if o == No then Never(src, pat, caps, s, p) else First(src, pat, caps, s, p, ks, o)
  }

  /** The outcome is the only right one. */
  lemma {:induction false} RightUnique(src: string, pat: string, caps: seq<Cap>, s: int, p: int, ks: seq<Choice>,
      o: Outcome, ks': seq<Choice>, o': Outcome)
    requires 0 <= s && 0 <= p <= |pat| && Right(src, pat, caps, s, p, ks, o) && Right(src, pat, caps, s, p, ks', o')
    ensures o == o'
  {
    if o != No && o' != No && ks != ks' {
      OneFirst(src, pat, caps, s, p, ks, ks');
    }
  }

  lemma ChoiceMade(src: string, pat: string, caps: seq<Cap>, s: int, p: int, ks: seq<Choice>)
    requires 0 <= s && 0 <= p <= |pat| && Meaning(src, pat, caps, s, p, ks) != No
    requires var i := ItemAt(pat, p); i.Optional? || i.Star? || i.Plus? || i.Minus?
    ensures var i := ItemAt(pat, p);
      && p < i.next <= |pat| && ks != [] && (if i.Minus? then ks[0].Few? else ks[0].Many?)
      && Meaning(src, pat, caps, s + ks[0].k, i.next, ks[1..]) != No
  {
    ItemMoves(pat, p);
  }

  /** Of two choices that do not fail one comes before the other. */
  lemma {:induction false} OneFirst(src: string, pat: string, caps: seq<Cap>, s: int, p: int, ks: seq<Choice>,
      js: seq<Choice>)
    requires 0 <= s && 0 <= p <= |pat| && ks != js && Meaning(src, pat, caps, s, p, ks) != No
      && Meaning(src, pat, caps, s, p, js) != No
    ensures Before(ks, js) || Before(js, ks)
    decreases |pat| - p, 1
  {
    hide Meaning;
    var i := ItemAt(pat, p);
    if i.Optional? || i.Star? || i.Plus? || i.Minus? {
      ChoiceMade(src, pat, caps, s, p, ks);
      ChoiceMade(src, pat, caps, s, p, js);
      if ks[0] == js[0] {
        assert ks == [ks[0]] + ks[1..] && js == [js[0]] + js[1..];
        OneFirst(src, pat, caps, s + ks[0].k, i.next, ks[1..], js[1..]);
      }
    } else {
      FirstFurtherOn(src, pat, caps, s, p, ks, js);
    }
  }

  /** At an item without a choice the first difference comes later. */
  lemma {:induction false} FirstFurtherOn(src: string, pat: string, caps: seq<Cap>, s: int, p: int, ks: seq<Choice>,
      js: seq<Choice>)
    requires 0 <= s && 0 <= p <= |pat| && ks != js && Meaning(src, pat, caps, s, p, ks) != No
      && Meaning(src, pat, caps, s, p, js) != No
    requires var i := ItemAt(pat, p); !(i.Optional? || i.Star? || i.Plus? || i.Minus?)
    ensures Before(ks, js) || Before(js, ks)
    decreases |pat| - p, 0
  {
    ItemMoves(pat, p);
    hide Before;
    var i := ItemAt(pat, p);
    if i.Open? && |caps| < MAXCAPTURES {
      OneFirst(src, pat, caps + [Cap(s, i.what)], s, i.next, ks, js);
    } else if i.Close? && ToClose(caps) != -1 {
      var l := ToClose(caps);
      OneFirst(src, pat, caps[l := Cap(caps[l].init, s - caps[l].init)], s, i.next, ks, js);
    } else if i.Balance? {
      OneFirst(src, pat, caps, Balanced(src, s, i.b, i.e), i.next, ks, js);
    } else if i.Frontier? {
      OneFirst(src, pat, caps, s, i.next, ks, js);
    } else if i.BackRef? && 0 <= i.l < |caps| && caps[i.l].len != UNFINISHED {
      OneFirst(src, pat, caps, s + caps[i.l].len, i.next, ks, js);
    } else if i.One? {
      OneFirst(src, pat, caps, s + 1, i.next, ks, js);
    }
  }

  // ------------------------------------------- one item after the other

  /** Nothing is chosen at this item: what comes after it decides. */
  lemma Through(src: string, pat: string, caps: seq<Cap>, s: int, p: int, caps': seq<Cap>, s': int, next: int,
      ks: seq<Choice>, o: Outcome)
    requires 0 <= s && 0 <= p <= |pat| && 0 <= s' && 0 <= next <= |pat| && Right(src, pat, caps', s', next, ks, o)
    requires forall js :: Meaning(src, pat, caps, s, p, js) == Meaning(src, pat, caps', s', next, js)
    ensures Right(src, pat, caps, s, p, ks, o)
  {
    hide Meaning;
  }

  /** Nothing can match here, or an error is raised here. */
  lemma Here(src: string, pat: string, caps: seq<Cap>, s: int, p: int, o: Outcome)
    requires 0 <= s && 0 <= p <= |pat| && (forall js :: js != [] ==> Meaning(src, pat, caps, s, p, js) == No)
      && Meaning(src, pat, caps, s, p, []) == o
    ensures Right(src, pat, caps, s, p, [], o)
  {
    hide Meaning;
  }

  /** How many repetitions an item that prefers many may have. */
  predicate Allowed(i: Item, k: nat) { (i.Optional? && k <= 1) || i.Star? || (i.Plus? && k >= 1) }

  lemma ManyMeaning(src: string, pat: string, caps: seq<Cap>, s: int, p: int, js: seq<Choice>)
    requires 0 <= s && 0 <= p <= |pat| && (ItemAt(pat, p).Optional? || ItemAt(pat, p).Star? || ItemAt(pat, p).Plus?)
    ensures var i := ItemAt(pat, p);
      && 0 <= p < i.ep < i.next <= |pat|
      && Meaning(src, pat, caps, s, p, js) ==
         if js != [] && js[0].Many? && Allowed(i, js[0].k) && Repeated(src, pat, s, p, i.ep, js[0].k)
             then Meaning(src, pat, caps, s + js[0].k, i.next, js[1..]) else No
  {
    ItemMoves(pat, p);
  }

  /** The most repetitions after which the rest matches are the first choice. */
  lemma ManyRight(src: string, pat: string, caps: seq<Cap>, s: int, p: int, k: nat, ks: seq<Choice>, o: Outcome)
    requires 0 <= s && 0 <= p <= |pat| && (ItemAt(pat, p).Optional? || ItemAt(pat, p).Star? || ItemAt(pat, p).Plus?)
    requires var i := ItemAt(pat, p); 0 <= p < i.ep < i.next <= |pat|
    requires var i := ItemAt(pat, p);
      forall j: nat :: Repeated(src, pat, s, p, i.ep, j) && Allowed(i, j) && (o == No || j > k) ==>
          Never(src, pat, caps, s + j, i.next)
    requires var i := ItemAt(pat, p);
      o != No ==> Allowed(i, k) && Repeated(src, pat, s, p, i.ep, k) && First(src, pat, caps, s + k, i.next, ks, o)
    ensures Right(src, pat, caps, s, p, [Many(k)] + ks, o)
  {
    var all := [Many(k)] + ks;
    assert all[1..] == ks;
    ManyMeaning(src, pat, caps, s, p, all);
    forall js | o == No || Before(js, all) ensures Meaning(src, pat, caps, s, p, js) == No {
      ManyMeaning(src, pat, caps, s, p, js);
      hide Meaning, Repeated, ItemAt;
      assert o == No ==> forall j: nat ::
        Repeated(src, pat, s, p, ItemAt(pat, p).ep, j) && Allowed(ItemAt(pat, p), j) ==>
          Never(src, pat, caps, s + j, ItemAt(pat, p).next);
    }
  }

  lemma FewMeaning(src: string, pat: string, caps: seq<Cap>, s: int, p: int, js: seq<Choice>)
    requires 0 <= s && 0 <= p <= |pat| && ItemAt(pat, p).Minus?
    ensures var i := ItemAt(pat, p);
      && 0 <= p < i.ep < i.next <= |pat|
      && Meaning(src, pat, caps, s, p, js) ==
         if js != [] && js[0].Few? && Repeated(src, pat, s, p, i.ep, js[0].k)
             then Meaning(src, pat, caps, s + js[0].k, i.next, js[1..]) else No
  {
    ItemMoves(pat, p);
  }

  /** The fewest repetitions after which the rest matches are the first choice. */
  lemma FewRight(src: string, pat: string, caps: seq<Cap>, s: int, p: int, k: nat, ks: seq<Choice>, o: Outcome)
    requires 0 <= s && 0 <= p <= |pat| && ItemAt(pat, p).Minus?
    requires var i := ItemAt(pat, p); 0 <= p < i.ep < i.next <= |pat|
    requires var i := ItemAt(pat, p);
      forall j: nat :: Repeated(src, pat, s, p, i.ep, j) && (o == No || j < k) ==> Never(src, pat, caps, s + j, i.next)
    requires var i := ItemAt(pat, p); o != No ==> Repeated(src, pat, s, p, i.ep, k) && First(src, pat, caps, s + k,
      i.next, ks, o)
    ensures Right(src, pat, caps, s, p, [Few(k)] + ks, o)
  {
    var all := [Few(k)] + ks;
    assert all[1..] == ks;
    FewMeaning(src, pat, caps, s, p, all);
    forall js | o == No || Before(js, all) ensures Meaning(src, pat, caps, s, p, js) == No {
      FewMeaning(src, pat, caps, s, p, js);
      hide Meaning, Repeated, ItemAt;
      assert o == No ==> forall j: nat :: Repeated(src, pat, s, p, ItemAt(pat, p).ep, j) ==> Never(src, pat, caps,
          s + j, ItemAt(pat, p).next);
    }
  }

  predicate IsRepeated(i: Item) { i.Optional? || i.Star? || i.Plus? || i.Minus? }

  /** What an item without repetition does: an end to the matching, or a new state to go on from. */
  datatype Cont = Stop(o: Outcome) | Go(caps: seq<Cap>, s: int, next: int)

  function Act(src: string, pat: string, caps: seq<Cap>, s: int, p: int): Cont
    requires 0 <= s && 0 <= p <= |pat| && !IsRepeated(ItemAt(pat, p))
  {
    ItemMoves(pat, p);
    match ItemAt(pat, p)
    case End => Stop(Yes(s, caps))
    case EndAnchor => Stop(If(s == |src|, Yes(s, caps)))
    case Malformed => Stop(Error)
    case Open(what, next) => if |caps| >= MAXCAPTURES then Stop(Error) else Go(caps + [Cap(s, what)], s, next)
    case Close(next) =>
      var l := ToClose(caps);
      if l == -1 then Stop(Error) else Go(caps[l := Cap(caps[l].init, s - caps[l].init)], s, next)
    case Balance(b, e, next) =>
      var s' := Balanced(src, s, b, e);
      if s' == -1 then Stop(No) else Go(caps, s', next)
    case Frontier(lb, next) => if AtFrontier(src, pat, s, lb, next) then Go(caps, s, next) else Stop(No)
    case BackRef(l, next) =>
      if !(0 <= l < |caps|) || caps[l].len == UNFINISHED then Stop(Error)
      else if caps[l].len < 0 || |src| - s < caps[l].len || !SameText(src, caps[l].init, s, caps[l].len) then Stop(No)
      else Go(caps, s + caps[l].len, next)
    case One(next) => if Single(src, pat, s, p, next) then Go(caps, s + 1, next) else Stop(No)
  }

  lemma ActMeaning(src: string, pat: string, caps: seq<Cap>, s: int, p: int, js: seq<Choice>)
    requires 0 <= s && 0 <= p <= |pat| && !IsRepeated(ItemAt(pat, p))
    ensures var a := Act(src, pat, caps, s, p);
      && (a.Go? ==> 0 <= a.s && p < a.next <= |pat|)
      && Meaning(src, pat, caps, s, p, js) ==
         if a.Stop? then If(js == [], a.o) else Meaning(src, pat, a.caps, a.s, a.next, js)
  {
    ItemMoves(pat, p);
  }

  lemma StopRight(src: string, pat: string, caps: seq<Cap>, s: int, p: int)
    requires 0 <= s && 0 <= p <= |pat| && !IsRepeated(ItemAt(pat, p)) && Act(src, pat, caps, s, p).Stop?
    ensures Right(src, pat, caps, s, p, [], Act(src, pat, caps, s, p).o)
  {
    forall js ensures Meaning(src, pat, caps, s, p, js) == If(js == [], Act(src, pat, caps, s, p).o) {
      ActMeaning(src, pat, caps, s, p, js);
    }
    hide Act, Meaning;
    Here(src, pat, caps, s, p, Act(src, pat, caps, s, p).o);
  }

  lemma GoRight(src: string, pat: string, caps: seq<Cap>, s: int, p: int, ks: seq<Choice>, o: Outcome)
    requires 0 <= s && 0 <= p <= |pat| && !IsRepeated(ItemAt(pat, p)) && Act(src, pat, caps, s, p).Go?
    requires var a := Act(src, pat, caps, s, p);
      0 <= a.s && 0 <= a.next <= |pat| && Right(src, pat, a.caps, a.s, a.next, ks, o)
    ensures Right(src, pat, caps, s, p, ks, o)
  {
    var a := Act(src, pat, caps, s, p);
    forall js ensures Meaning(src, pat, caps, s, p, js) == Meaning(src, pat, a.caps, a.s, a.next, js) {
      ActMeaning(src, pat, caps, s, p, js);
    }
    hide Act, Meaning;
    Through(src, pat, caps, s, p, a.caps, a.s, a.next, ks, o);
  }

  // ------------------------------------------------------- balanced strings

  /** How many more b than e there are in src[i..j]. */
  function Depth(src: string, i: int, j: int, b: char, e: char): int
    requires 0 <= i <= |src| && j <= |src|
    decreases j - i
  {
    if j <= i then 0 else Depth(src, i, j - 1, b, e) + (if src[j - 1] == e then -1
        else if src[j - 1] == b then 1 else 0)
  }

  /** %bxy matches up to where the number of x and y is first the same. */
  lemma BalancedIs(src: string, s: int, b: char, e: char)
    requires 0 <= s < |src| && src[s] == b != e
    ensures var r := Balanced(src, s, b, e);
      if r == -1 then forall j :: s < j <= |src| ==> Depth(src, s, j, b, e) > 0
      else src[r - 1] == e && Depth(src, s, r, b, e) == 0 && forall j :: s < j < r ==> Depth(src, s, j, b, e) > 0
  {
    assert Depth(src, s, s + 1, b, e) == 1;
    BalanceDepth(src, s, s + 1, b, e, 1);
  }

  lemma {:induction false} BalanceDepth(src: string, s: int, i: int, b: char, e: char, cont: int)
    requires 0 <= s < i <= |src| && b != e && cont > 0 && cont == Depth(src, s, i, b, e)
    ensures var r := BalanceEnd(src, i, b, e, cont);
      if r == -1 then forall j :: i <= j <= |src| ==> Depth(src, s, j, b, e) > 0
      else src[r - 1] == e && Depth(src, s, r, b, e) == 0 && forall j :: i <= j < r ==> Depth(src, s, j, b, e) > 0
    decreases |src| - i
  {
    if i < |src| {
      var next := Depth(src, s, i + 1, b, e);
      if next > 0 {
        BalanceDepth(src, s, i + 1, b, e, next);
      }
    }
  }
}
