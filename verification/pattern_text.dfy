/** Patterns as one writes them: what a text made of items matches, found by backtracking. */
module PatternText {
  import opened Shared
  import opened PatternSyntax
  import opened PatternMeaning
  import opened PatternMatch

  // -------------------------------------------------------------------- texts

  /** Matches one character. */
  datatype Atom = Plain(c: char) | AnyChar | Letter(cl: char) | Set(not: bool, es: seq<Element>)

  datatype Suffix = Once | ZeroOrMore | OneOrMore | AtMostOne | Fewest

  datatype Node =
    | Piece(a: Atom, x: Suffix)
    | OpenCap | CloseCap | PositionCap
    | Again(digit: char)                   // the text of a capture
    | Pair(b: char, e: char)               // a balanced text
    | Edge(not: bool, es: seq<Element>)    // a frontier
    | AtEnd

  function ElementText(e: Element): string {
    match e
    case Class(cl) => ['%', cl]
    case Range(lo, hi) => if lo == hi then [lo] else [lo, '-', hi]
  }

  function ElementsText(es: seq<Element>): string {
    if es == [] then "" else ElementText(es[0]) + ElementsText(es[1..])
  }

  function SetText(not: bool, es: seq<Element>): string { (if not then "[^" else "[") + ElementsText(es) + "]" }

  function AtomText(a: Atom): (t: string)
    ensures t != ""
  {
    match a
    case Plain(c) => [c]
    case AnyChar => "."
    case Letter(cl) => ['%', cl]
    case Set(not, es) => SetText(not, es)
  }

  function SuffixText(x: Suffix): string {
    match x
    case Once => ""
    case ZeroOrMore => "*"
    case OneOrMore => "+"
    case AtMostOne => "?"
    case Fewest => "-"
  }

  function NodeText(node: Node): string {
    match node
    case Piece(a, x) => AtomText(a) + SuffixText(x)
    case OpenCap => "("
    case CloseCap => ")"
    case PositionCap => "()"
    case Again(digit) => ['%', digit]
    case Pair(b, e) => ['%', 'b', b, e]
    case Edge(not, es) => "%f" + SetText(not, es)
    case AtEnd => "$"
  }

  function Text(nodes: seq<Node>): string { if nodes == [] then "" else NodeText(nodes[0]) + Text(nodes[1..]) }

  predicate InRange(c: char) { c != NUL && c != '%' && c != ']' }

  predicate ElementOk(e: Element) {
    match e
    case Class(cl) => cl != NUL
    case Range(lo, hi) => InRange(lo) && lo != '-' && (lo == hi || InRange(hi))
  }

  predicate SetOk(not: bool, es: seq<Element>) {
    && es != [] && (forall e :: e in es ==> ElementOk(e))
    && (es[0].Range? && es[0].lo == '^' ==> not)
  }

  predicate AtomOk(a: Atom) {
    match a
    case Plain(c) => c !in "\0()%.["
    case AnyChar => true
    case Letter(cl) => cl !in "\0bf" && !IsDigit(cl)
    case Set(not, es) => SetOk(not, es)
  }

  /** The node is read back as itself before the rest. */
  predicate NodeOk(node: Node, rest: string) {
    match node
    case Piece(a, x) =>
      && AtomOk(a) && (x.Once? ==> At(rest, 0) !in "*+?-")
      && (a == Plain('$') && x.Once? ==> At(rest, 0) != NUL)
    case OpenCap => At(rest, 0) != ')'
    case Again(digit) => IsDigit(digit)
    case Pair(b, e) => b != NUL && e != NUL
    case Edge(not, es) => SetOk(not, es)
    case AtEnd => rest == ""
    case _ => true
  }

  predicate TextOk(nodes: seq<Node>) {
    nodes == [] || (NodeOk(nodes[0], Text(nodes[1..])) && TextOk(nodes[1..]))
  }

  // ------------------------------------------------------------ backtracking

  predicate Takes(a: Atom, x: char) {
    match a
    case Plain(c) => x == c
    case AnyChar => true
    case Letter(cl) => InClass(x, cl)
    case Set(not, es) => (exists e :: e in es && if e.Class? then InClass(x, e.cl) else e.lo <= x <= e.hi) != not
  }

  /** How many characters in a row the atom takes. */
  function InARow(src: string, a: Atom, s: nat): (n: nat)
    requires s <= |src|
    ensures s + n <= |src| && (forall i :: s <= i < s + n ==> Takes(a, src[i]))
    ensures s + n < |src| ==> !Takes(a, src[s + n])
    decreases |src| - s
  {
    if s < |src| && Takes(a, src[s]) then 1 + InARow(src, a, s + 1) else 0
  }

  /** Match the nodes at place s, trying the choices in order. */
  function Matched(src: string, nodes: seq<Node>, caps: seq<Cap>, s: nat): Outcome
    requires s <= |src|
    decreases |nodes|, 0
  {
    if nodes == [] then Yes(s, caps) else
    var rest := nodes[1..];
    match nodes[0]
    case Piece(a, x) =>
      var n := InARow(src, a, s);
      (match x
       case Once => if n == 0 then No else Matched(src, rest, caps, s + 1)
       case ZeroOrMore => Most(src, rest, caps, s, n, 0)
       case OneOrMore => if n == 0 then No else Most(src, rest, caps, s, n, 1)
       case AtMostOne => Most(src, rest, caps, s, if n == 0 then 0 else 1, 0)
       case Fewest => Least(src, rest, caps, s, 0, n))
    case OpenCap => if |caps| >= 32 then Error else Matched(src, rest, caps + [Cap(s, UNFINISHED)], s)
    case PositionCap => if |caps| >= 32 then Error else Matched(src, rest, caps + [Cap(s, POSITION)], s)
    case CloseCap =>
      var l := ToClose(caps);
      if l == -1 then Error else Matched(src, rest, caps[l := Cap(caps[l].init, s - caps[l].init)], s)
    case Again(digit) =>
      var l := digit as int - '1' as int;
      if !(0 <= l < |caps|) || caps[l].len == UNFINISHED then Error else
      var i, n := caps[l].init, caps[l].len;
      if n >= 0 && s + n <= |src| && 0 <= i && i + n <= |src| && src[i..i + n] == src[s..s + n] then
        Matched(src, rest, caps, s + n)
      else No
    case Pair(b, e) =>
      var s' := Balanced(src, s, b, e);
      if s' == -1 then No else Matched(src, rest, caps, s')
    case Edge(not, es) =>
      if !Takes(Set(not, es), if s == 0 then '\0' else src[s - 1])
        && Takes(Set(not, es), if s == |src| then '\0' else src[s])
      then Matched(src, rest, caps, s) else No
    case AtEnd => if s == |src| then Matched(src, rest, caps, s) else No
  }

  /** From k repetitions down to lo. */
  function Most(src: string, rest: seq<Node>, caps: seq<Cap>, s: nat, k: nat, lo: nat): Outcome
    requires s + k <= |src| && lo <= k
    decreases |rest|, 1 + k
  {
    var o := Matched(src, rest, caps, s + k);
    if o != No || k == lo then o else Most(src, rest, caps, s, k - 1, lo)
  }

  /** From k repetitions up to hi. */
  function Least(src: string, rest: seq<Node>, caps: seq<Cap>, s: nat, k: nat, hi: nat): Outcome
    requires s + hi <= |src| && k <= hi
    decreases |rest|, 1 + hi - k
  {
    var o := Matched(src, rest, caps, s + k);
    if o != No || k == hi then o else Least(src, rest, caps, s, k + 1, hi)
  }

  // ------------------------------------------------------------ reading texts

  /** The text t stands at place i. */
  predicate Stands(pat: string, i: nat, t: string) { i + |t| <= |pat| && pat[i..i + |t|] == t }

  lemma StandsSplit(pat: string, i: nat, t: string, u: string)
    ensures Stands(pat, i, t + u) <==> Stands(pat, i, t) && Stands(pat, i + |t|, u)
  {
    if i + |t + u| <= |pat| {
      assert pat[i..i + |t + u|] == pat[i..i + |t|] + pat[i + |t|..i + |t + u|];
      if Stands(pat, i, t + u) {
        assert pat[i..i + |t|] == (t + u)[..|t|] && pat[i + |t|..i + |t + u|] == (t + u)[|t|..];
      }
    }
  }

  lemma StandsAt(pat: string, i: nat, t: string, k: nat)
    requires Stands(pat, i, t) && k < |t|
    ensures At(pat, i + k) == t[k] && i + k < |pat|
  {
    assert pat[i..i + |t|][k] == t[k];
  }

  /** The closing bracket stands after the elements. */
  predicate Closed(pat: string, i: nat, es: seq<Element>) {
    && (forall e :: e in es ==> ElementOk(e))
    && Stands(pat, i, ElementsText(es)) && At(pat, i + |ElementsText(es)|) == ']'
  }

  lemma AllAt(pat: string, i: nat, t: string)
    requires Stands(pat, i, t)
    ensures forall k :: 0 <= k < |t| ==> At(pat, i + k) == t[k]
  {
    forall k: nat | k < |t| ensures At(pat, i + k) == t[k] {
      StandsAt(pat, i, t, k);
    }
  }

  lemma FirstRead(pat: string, i: nat, es: seq<Element>)
    requires Closed(pat, i, es) && es != []
    ensures var t := ElementText(es[0]);
      && 1 <= |t| <= 3 && Stands(pat, i, t) && Closed(pat, i + |t|, es[1..])
      && |ElementsText(es)| == |t| + |ElementsText(es[1..])|
  {
    hide Stands, At;
    StandsSplit(pat, i, ElementText(es[0]), ElementsText(es[1..]));
  }

  lemma HeadOf(pat: string, i: nat, es: seq<Element>)
    requires Closed(pat, i, es)
    ensures if es != [] then At(pat, i) != ']' && At(pat, i) != '-' else At(pat, i) == ']'
  {
    if es != [] {
      assert es[0] in es;
      FirstRead(pat, i, es);
      StandsAt(pat, i, ElementText(es[0]), 0);
      hide Stands, Closed;
    }
  }

  /** What stands at the first element of several, and after it. */
  lemma FirstElement(pat: string, i: nat, es: seq<Element>)
    requires Closed(pat, i, es) && es != []
    ensures var t := ElementText(es[0]);
      && 1 <= |t| <= 3 && (forall k :: 0 <= k < |t| ==> At(pat, i + k) == t[k])
      && Closed(pat, i + |t|, es[1..]) && |ElementsText(es)| == |t| + |ElementsText(es[1..])|
      && (if |es| > 1 then At(pat, i + |t|) != ']' && At(pat, i + |t|) != '-' else At(pat, i + |t|) == ']')
  {
    hide Closed, ElementsText, Stands, At;
    FirstRead(pat, i, es);
    AllAt(pat, i, ElementText(es[0]));
    HeadOf(pat, i + |ElementText(es[0])|, es[1..]);
  }

  /** The text of e stands at i and another character follows. */
  predicate Reads(pat: string, i: nat, e: Element) {
    var t := ElementText(e);
    && ElementOk(e) && i + |t| < |pat| && At(pat, i) == t[0] && (|t| > 1 ==> At(pat, i + 1) == t[1])
    && (|t| > 2 ==> At(pat, i + 2) == t[2]) && At(pat, i + |t|) != '-'
  }

  lemma FirstReads(pat: string, i: nat, es: seq<Element>)
    requires Closed(pat, i, es) && es != []
    ensures var t := ElementText(es[0]);
      && Reads(pat, i, es[0]) && Closed(pat, i + |t|, es[1..])
      && |ElementsText(es)| == |t| + |ElementsText(es[1..])|
      && (|es| == 1 <==> At(pat, i + |t|) == ']')
  {
    FirstElement(pat, i, es);
    assert es[0] in es && ElementOk(es[0]);
    hide Closed, ElementsText;
  }

  lemma ElementRead(pat: string, i: nat, e: Element, ec: nat)
    requires Reads(pat, i, e) && i + |ElementText(e)| <= ec <= |pat|
    ensures Elements(pat, i, ec) == [e] + Elements(pat, i + |ElementText(e)|, ec)
  {
  }

  lemma ElementSkipped(pat: string, i: nat, e: Element)
    requires Reads(pat, i, e)
    ensures var j := i + |ElementText(e)|; SetEnd(pat, i) == if At(pat, j) == ']' then j else SetEnd(pat, j)
  {
    if |ElementText(e)| == 3 {
      assert SetEnd(pat, i) == SetEnd(pat, i + 1);
      assert SetEnd(pat, i + 1) == SetEnd(pat, i + 2);
    }
  }

  lemma {:induction false} SetEndIs(pat: string, i: nat, es: seq<Element>)
    requires es != [] && Closed(pat, i, es)
    ensures SetEnd(pat, i) == i + |ElementsText(es)|
    decreases |es|
  {
    hide Closed, SetEnd;
    FirstReads(pat, i, es);
    ElementSkipped(pat, i, es[0]);
    if |es| > 1 {
      SetEndIs(pat, i + |ElementText(es[0])|, es[1..]);
    }
  }

  lemma {:induction false} ElementsIs(pat: string, i: nat, es: seq<Element>)
    requires Closed(pat, i, es)
    ensures i + |ElementsText(es)| < |pat| && Elements(pat, i, i + |ElementsText(es)|) == es
    decreases |es|
  {
    hide Closed, Reads;
    if es == [] {
      ClosedHere(pat, i);
    } else {
      FirstReads(pat, i, es);
      ElementsIs(pat, i + |ElementText(es[0])|, es[1..]);
      ElementRead(pat, i, es[0], i + |ElementsText(es)|);
      assert es == [es[0]] + es[1..];
    }
  }

  lemma ClosedHere(pat: string, i: nat)
    requires Closed(pat, i, [])
    ensures i < |pat|
  {
  }

  lemma SetStands(pat: string, p: nat, not: bool, es: seq<Element>)
    requires SetOk(not, es) && Stands(pat, p, SetText(not, es))
    ensures var first := if not then p + 2 else p + 1;
      && p + 1 < |pat| && pat[p] == '[' && (not <==> At(pat, p + 1) == '^') && Closed(pat, first, es)
      && first + |ElementsText(es)| + 1 == p + |SetText(not, es)| <= |pat|
  {
    var head, body := if not then "[^" else "[", ElementsText(es);
    StandsSplit(pat, p, head, body + "]");
    assert head + (body + "]") == SetText(not, es);
    StandsSplit(pat, p + |head|, body, "]");
    AllAt(pat, p, head);
    StandsAt(pat, p + |head| + |body|, "]", 0);
    hide Stands;
    FirstIsPlain(pat, p + |head|, es);
  }

  lemma FirstIsPlain(pat: string, i: nat, es: seq<Element>)
    requires es != [] && Closed(pat, i, es)
    ensures At(pat, i) == if es[0].Class? then '%' else es[0].lo
  {
    FirstElement(pat, i, es);
    hide Closed, ElementsText;
  }

  /** A set ends at its bracket and takes what its elements take. */
  lemma SetIs(pat: string, p: nat, not: bool, es: seq<Element>)
    requires SetOk(not, es) && Stands(pat, p, SetText(not, es))
    ensures var ep := p + |SetText(not, es)|;
      && p < ep <= |pat| && pat[p] == '[' && ClassEnd(pat, p) == ep
      && forall x :: InSet(pat, p, ep - 1, x) <==> Takes(Set(not, es), x)
  {
    hide Stands, Closed, InClass;
    SetStands(pat, p, not, es);
    var first := if not then p + 2 else p + 1;
    SetEndIs(pat, first, es);
    ElementsIs(pat, first, es);
  }

  /** An atom ends where its text does. */
  lemma AtomEnds(pat: string, p: nat, a: Atom)
    requires AtomOk(a) && Stands(pat, p, AtomText(a))
    ensures var ep := p + |AtomText(a)|; p < ep <= |pat| && ClassEnd(pat, p) == ep
  {
    AllAt(pat, p, AtomText(a));
    hide Takes, InSet, SetOk;
    if a.Set? {
      SetIs(pat, p, a.not, a.es);
    }
  }

  /** An atom takes its characters. */
  lemma AtomTakes(src: string, pat: string, s: nat, p: nat, a: Atom)
    requires AtomOk(a) && Stands(pat, p, AtomText(a)) && p + |AtomText(a)| <= |pat|
    ensures Single(src, pat, s, p, p + |AtomText(a)|) <==> s < |src| && Takes(a, src[s])
  {
    hide InClass, InSet;
    AllAt(pat, p, AtomText(a));
    if a.Set? {
      hide Stands, Closed, SetOk, Takes;
      SetIs(pat, p, a.not, a.es);
    } else {
      hide Stands, ElementsText;
    }
  }

  /** The item that stands for a node at p. */
  function ItemOf(node: Node, p: nat): Item {
    var q := p + |NodeText(node)|;
    match node
    case Piece(a, Once) => One(q)
    case Piece(a, ZeroOrMore) => Star(q - 1, q)
    case Piece(a, OneOrMore) => Plus(q - 1, q)
    case Piece(a, AtMostOne) => Optional(q - 1, q)
    case Piece(a, Fewest) => Minus(q - 1, q)
    case OpenCap => Item.Open(UNFINISHED, q)
    case PositionCap => Item.Open(POSITION, q)
    case CloseCap => Close(q)
    case Again(digit) => BackRef(digit as int - '1' as int, q)
    case Pair(b, e) => Balance(b, e, q)
    case Edge(not, es) => Frontier(p + 2, q)
    case AtEnd => EndAnchor
  }

  lemma NodeStands(pat: string, p: nat, node: Node, rest: string)
    requires p <= |pat| && pat[p..] == NodeText(node) + rest
    ensures var q := p + |NodeText(node)|;
      q <= |pat| && Stands(pat, p, NodeText(node)) && pat[q..] == rest && At(pat, q) == At(rest, 0)
  {
    var t := NodeText(node);
    assert pat[p..][..|t|] == t && pat[p..][|t|..] == rest;
    assert pat[p..][|t|..] == pat[p + |t|..] && pat[p..][..|t|] == pat[p..p + |t|];
  }

  lemma Chars(pat: string, p: nat, node: Node, rest: string)
    requires p <= |pat| && pat[p..] == NodeText(node) + rest
    ensures var t := NodeText(node);
      && p < |pat| && |t| > 0 && Stands(pat, p, t) && At(pat, p) == t[0] && (|t| > 1 ==> At(pat, p + 1) == t[1])
      && (|t| > 2 ==> At(pat, p + 2) == t[2]) && (|t| > 3 ==> At(pat, p + 3) == t[3])
      && At(pat, p + |t|) == At(rest, 0)
  {
    NodeStands(pat, p, node, rest);
    AllAt(pat, p, NodeText(node));
  }

  lemma PieceStands(pat: string, p: nat, a: Atom, x: Suffix, rest: string)
    requires p <= |pat| && pat[p..] == NodeText(Piece(a, x)) + rest && AtomOk(a)
    ensures var t, ep := AtomText(a), p + |AtomText(a)|;
      && ep <= |pat| && Stands(pat, p, t) && At(pat, p) == t[0] && (|t| > 1 ==> At(pat, p + 1) == t[1])
      && ClassEnd(pat, p) == ep && At(pat, ep) == if x.Once? then At(rest, 0) else SuffixText(x)[0]
  {
    Chars(pat, p, Piece(a, x), rest);
    StandsSplit(pat, p, AtomText(a), SuffixText(x));
    AtomEnds(pat, p, a);
    AllAt(pat, p, AtomText(a));
    hide Stands, ClassEnd;
    if !x.Once? {
      StandsAt(pat, p + |AtomText(a)|, SuffixText(x), 0);
    }
  }

  lemma PieceIs(pat: string, p: nat, a: Atom, x: Suffix, rest: string)
    requires p <= |pat| && pat[p..] == NodeText(Piece(a, x)) + rest && NodeOk(Piece(a, x), rest)
    ensures ItemAt(pat, p) == ItemOf(Piece(a, x), p) && Stands(pat, p, AtomText(a))
  {
    PieceStands(pat, p, a, x, rest);
    hide Stands, ClassEnd, SetText, SetOk;
    assert p < |pat| && ItemAt(pat, p) == SingleItem(pat, p);
  }

  lemma EdgeIs(pat: string, p: nat, not: bool, es: seq<Element>, rest: string)
    requires p <= |pat| && pat[p..] == NodeText(Edge(not, es)) + rest && SetOk(not, es)
    ensures ItemAt(pat, p) == ItemOf(Edge(not, es), p) && Stands(pat, p + 2, SetText(not, es))
  {
    Chars(pat, p, Edge(not, es), rest);
    StandsSplit(pat, p, "%f", SetText(not, es));
    SetIs(pat, p + 2, not, es);
    hide Stands, ClassEnd, Takes, SetOk;
  }

  /** The text of a node is the item that stands for it. */
  lemma ItemIs(pat: string, p: nat, node: Node, rest: string)
    requires p <= |pat| && pat[p..] == NodeText(node) + rest && NodeOk(node, rest)
    ensures ItemAt(pat, p) == ItemOf(node, p)
  {
    hide Stands, ClassEnd, AtomOk, SetOk, SingleItem;
    match node
    case Piece(a, x) => PieceIs(pat, p, a, x, rest);
    case Edge(not, es) => EdgeIs(pat, p, not, es, rest);
    case _ => Chars(pat, p, node, rest);
  }

  // ------------------------------------------------------------- the theorem

  /** Matching the pattern from p at place s gives o. By RightUnique it gives nothing else. */
  ghost predicate Gives(src: string, pat: string, caps: seq<Cap>, s: nat, p: nat, o: Outcome)
    requires p <= |pat|
  {
    exists ks :: Right(src, pat, caps, s, p, ks, o)
  }

  lemma {:induction false} MostIs(src: string, rest: seq<Node>, caps: seq<Cap>, s: nat, k: nat, lo: nat)
    returns (m: nat)
    requires s + k <= |src| && lo <= k
    ensures lo <= m <= k && Most(src, rest, caps, s, k, lo) == Matched(src, rest, caps, s + m)
    ensures Most(src, rest, caps, s, k, lo) == No ==> m == lo
    ensures forall t: nat :: s + m < t <= s + k ==> Matched(src, rest, caps, t) == No
    decreases k
  {
    m := k;
    if Matched(src, rest, caps, s + k) == No && k != lo {
      m := MostIs(src, rest, caps, s, k - 1, lo);
    }
  }

  lemma {:induction false} LeastIs(src: string, rest: seq<Node>, caps: seq<Cap>, s: nat, k: nat, hi: nat)
    returns (m: nat)
    requires s + hi <= |src| && k <= hi
    ensures k <= m <= hi && Least(src, rest, caps, s, k, hi) == Matched(src, rest, caps, s + m)
    ensures Least(src, rest, caps, s, k, hi) == No ==> m == hi
    ensures forall t: nat :: s + k <= t < s + m ==> Matched(src, rest, caps, t) == No
    decreases hi - k
  {
    m := k;
    if Matched(src, rest, caps, s + k) == No && k != hi {
      m := LeastIs(src, rest, caps, s, k + 1, hi);
    }
  }

  /** Whatever number of the n repetitions is chosen, the rest gives what it should. */
  ghost predicate RestGives(src: string, pat: string, next: nat, rest: seq<Node>, caps: seq<Cap>, s: nat, n: nat)
    requires next <= |pat| && s + n <= |src|
  {
    forall t: nat :: s <= t <= s + n ==> Gives(src, pat, caps, t, next, Matched(src, rest, caps, t))
  }

  /** The item can be repeated up to n times. */
  ghost predicate UpTo(src: string, pat: string, s: nat, p: nat, ep: nat, n: nat)
    requires p < ep <= |pat|
  {
    forall k: nat :: Repeated(src, pat, s, p, ep, k) <==> k <= n
  }

  lemma MostGives(src: string, pat: string, p: nat, rest: seq<Node>, caps: seq<Cap>, s: nat, n: nat, hi: nat,
      lo: nat)
    requires p <= |pat| && s + n <= |src| && lo <= hi <= n
    requires var i := ItemAt(pat, p);
      && (i.Optional? || i.Star? || i.Plus?)
      && 0 <= p < i.ep < i.next <= |pat| && RestGives(src, pat, i.next, rest, caps, s, n)
      && UpTo(src, pat, s, p, i.ep, n)
      && (forall k: nat :: k <= n && Allowed(i, k) <==> lo <= k <= hi)
    ensures Gives(src, pat, caps, s, p, Most(src, rest, caps, s, hi, lo))
  {
    hide Meaning, ItemAt, Repeated, Right, Matched, Never, First;
    var i := ItemAt(pat, p);
    var m := MostIs(src, rest, caps, s, hi, lo);
    var o := Matched(src, rest, caps, s + m);
    assert Gives(src, pat, caps, s + m, i.next, o);
    var ks :| Right(src, pat, caps, s + m, i.next, ks, o);
    forall j: nat | Repeated(src, pat, s, p, i.ep, j) && Allowed(i, j) && (o == No || j > m)
      ensures Never(src, pat, caps, s + j, i.next)
    {
      NoneGiven(src, pat, caps, s + j, i.next, Matched(src, rest, caps, s + j));
    }
    GivenFirst(src, pat, caps, s + m, i.next, ks, o);
    ManyRight(src, pat, caps, s, p, m, ks, o);
  }

  lemma NoneGiven(src: string, pat: string, caps: seq<Cap>, s: nat, p: nat, o: Outcome)
    requires p <= |pat| && Gives(src, pat, caps, s, p, o) && o == No
    ensures Never(src, pat, caps, s, p)
  {
    hide Never, First;
  }

  lemma GivenFirst(src: string, pat: string, caps: seq<Cap>, s: nat, p: nat, ks: seq<Choice>, o: Outcome)
    requires p <= |pat| && Right(src, pat, caps, s, p, ks, o)
    ensures o != No ==> First(src, pat, caps, s, p, ks, o)
  {
    hide Never, First;
  }

  lemma LeastGives(src: string, pat: string, p: nat, rest: seq<Node>, caps: seq<Cap>, s: nat, n: nat)
    requires p <= |pat| && s + n <= |src|
    requires var i := ItemAt(pat, p);
      && i.Minus? && 0 <= p < i.ep < i.next <= |pat| && RestGives(src, pat, i.next, rest, caps, s, n)
      && UpTo(src, pat, s, p, i.ep, n)
    ensures Gives(src, pat, caps, s, p, Least(src, rest, caps, s, 0, n))
  {
    hide Meaning, ItemAt, Repeated, Right, Matched, Never, First;
    var i := ItemAt(pat, p);
    var m := LeastIs(src, rest, caps, s, 0, n);
    var o := Matched(src, rest, caps, s + m);
    assert Gives(src, pat, caps, s + m, i.next, o);
    var ks :| Right(src, pat, caps, s + m, i.next, ks, o);
    forall j: nat | Repeated(src, pat, s, p, i.ep, j) && (o == No || j < m)
      ensures Never(src, pat, caps, s + j, i.next)
    {
      NoneGiven(src, pat, caps, s + j, i.next, Matched(src, rest, caps, s + j));
    }
    GivenFirst(src, pat, caps, s + m, i.next, ks, o);
    FewRight(src, pat, caps, s, p, m, ks, o);
  }

  lemma EmptyText(nodes: seq<Node>)
    ensures Text(nodes) == "" <==> nodes == []
  {
    if nodes != [] {
      assert NodeText(nodes[0]) != "";
    }
  }

  /** The pattern from p on is the text of the nodes. */
  predicate IsText(pat: string, p: nat, nodes: seq<Node>) { p <= |pat| && pat[p..] == Text(nodes) && TextOk(nodes) }

  lemma NextText(pat: string, p: nat, nodes: seq<Node>)
    requires IsText(pat, p, nodes) && nodes != []
    ensures ItemAt(pat, p) == ItemOf(nodes[0], p) && p < p + |NodeText(nodes[0])| <= |pat|
    ensures IsText(pat, p + |NodeText(nodes[0])|, nodes[1..])
    ensures nodes[0].Piece? ==> Stands(pat, p, AtomText(nodes[0].a)) && AtomOk(nodes[0].a)
    ensures nodes[0].Edge? ==>
      Stands(pat, p + 2, SetText(nodes[0].not, nodes[0].es)) && SetOk(nodes[0].not, nodes[0].es)
    ensures nodes[0].AtEnd? ==> nodes[1..] == []
  {
    var rest := Text(nodes[1..]);
    NodeStands(pat, p, nodes[0], rest);
    ItemIs(pat, p, nodes[0], rest);
    EmptyText(nodes[1..]);
    hide Stands, ItemAt, SetText, AtomOk, SetOk;
    match nodes[0]
    case Piece(a, x) => PieceIs(pat, p, a, x, rest);
    case Edge(not, es) => EdgeIs(pat, p, not, es, rest);
    case _ =>
  }

  /** What a node without a choice does: matching stops, or goes on with the rest. */
  predicate Follows(src: string, p: nat, nodes: seq<Node>, caps: seq<Cap>, s: nat, a: Cont)
    requires s <= |src| && nodes != []
  {
    if a.Stop? then Matched(src, nodes, caps, s) == a.o
    else
      && s <= a.s <= |src| && a.next == p + |NodeText(nodes[0])| && Inside(a.caps, a.s)
      && Matched(src, nodes, caps, s) == Matched(src, nodes[1..], a.caps, a.s)
  }

  lemma OnceFollows(src: string, pat: string, p: nat, nodes: seq<Node>, caps: seq<Cap>, s: nat)
    requires IsText(pat, p, nodes) && nodes != [] && s <= |src| && Inside(caps, s)
    requires nodes[0].Piece? && nodes[0].x.Once?
    ensures ItemAt(pat, p).One? && Follows(src, p, nodes, caps, s, Act(src, pat, caps, s, p))
  {
    hide IsText, Matched, Act, Takes, Stands, AtomText, SetText, ClassEnd, InARow, AtomOk, SetOk, ItemAt, Single, InSet,
      Inside, InClass;
    NextText(pat, p, nodes);
    var a := nodes[0].a;
    assert NodeText(nodes[0]) == AtomText(a);
    AtomEnds(pat, p, a);
    AtomTakes(src, pat, s, p, a);
    ActOne(src, pat, caps, s, p);
    MatchedOnce(src, nodes, caps, s);
    InsideLater(caps, s, s + 1);
  }

  lemma ActOne(src: string, pat: string, caps: seq<Cap>, s: nat, p: nat)
    requires p <= |pat| && ItemAt(pat, p).One?
    ensures var next := ItemAt(pat, p).next;
      && p < next <= |pat|
      && Act(src, pat, caps, s, p) == if Single(src, pat, s, p, next) then Go(caps, s + 1, next) else Stop(No)
  {
    ItemMoves(pat, p);
    hide ItemAt, Single;
  }

  lemma MatchedOnce(src: string, nodes: seq<Node>, caps: seq<Cap>, s: nat)
    requires nodes != [] && nodes[0].Piece? && nodes[0].x.Once? && s <= |src|
    ensures Matched(src, nodes, caps, s) ==
      if s < |src| && Takes(nodes[0].a, src[s]) then Matched(src, nodes[1..], caps, s + 1) else No
  {
  }

  lemma EdgeFollows(src: string, pat: string, p: nat, nodes: seq<Node>, caps: seq<Cap>, s: nat)
    requires IsText(pat, p, nodes) && nodes != [] && s <= |src| && Inside(caps, s) && nodes[0].Edge?
    ensures ItemAt(pat, p).Frontier? && Follows(src, p, nodes, caps, s, Act(src, pat, caps, s, p))
  {
    hide IsText, Matched, Act, Takes, Stands, AtomText, SetText, ClassEnd, InARow, AtomOk, SetOk, ItemAt, Single, InSet,
      Inside, InClass;
    NextText(pat, p, nodes);
    SetIs(pat, p + 2, nodes[0].not, nodes[0].es);
    ActEdge(src, pat, caps, s, p);
    MatchedEdge(src, nodes, caps, s);
  }

  lemma ActEdge(src: string, pat: string, caps: seq<Cap>, s: nat, p: nat)
    requires p <= |pat| && ItemAt(pat, p).Frontier?
    ensures var i := ItemAt(pat, p);
      && 0 <= p < i.lb < i.next <= |pat|
      && Act(src, pat, caps, s, p) ==
         if !InSet(pat, i.lb, i.next - 1, if s == 0 then '\0' else At(src, s - 1))
           && InSet(pat, i.lb, i.next - 1, At(src, s)) then Go(caps, s, i.next) else Stop(No)
  {
    ItemMoves(pat, p);
    hide ItemAt, InSet;
  }

  lemma MatchedEdge(src: string, nodes: seq<Node>, caps: seq<Cap>, s: nat)
    requires nodes != [] && nodes[0].Edge? && s <= |src|
    ensures var set_ := Set(nodes[0].not, nodes[0].es);
      Matched(src, nodes, caps, s) ==
        if !Takes(set_, if s == 0 then '\0' else At(src, s - 1)) && Takes(set_, At(src, s)) then
          Matched(src, nodes[1..], caps, s)
        else No
  {
    hide Takes;
  }

  lemma AgainFollows(src: string, pat: string, p: nat, nodes: seq<Node>, caps: seq<Cap>, s: nat)
    requires IsText(pat, p, nodes) && nodes != [] && s <= |src| && Inside(caps, s) && nodes[0].Again?
    ensures ItemAt(pat, p).BackRef? && Follows(src, p, nodes, caps, s, Act(src, pat, caps, s, p))
  {
    hide IsText, Matched, Act, Takes, Stands, AtomText, SetText, ClassEnd, InARow, AtomOk, SetOk, ItemAt, Single, InSet,
      Inside;
    NextText(pat, p, nodes);
    var l := nodes[0].digit as int - '1' as int;
    ActAgain(src, pat, caps, s, p);
    MatchedAgain(src, nodes, caps, s);
    if 0 <= l < |caps| && caps[l].len >= 0 && s + caps[l].len <= |src| {
      InsideOne(caps, s, l);
      SlicesSame(src, caps[l].init, s, caps[l].len);
      InsideLater(caps, s, s + caps[l].len);
    }
  }

  lemma InsideOne(caps: seq<Cap>, s: nat, l: nat)
    requires Inside(caps, s) && l < |caps|
    ensures 0 <= caps[l].init && (caps[l].len >= 0 ==> caps[l].init + caps[l].len <= s)
  {
  }

  lemma ActAgain(src: string, pat: string, caps: seq<Cap>, s: nat, p: nat)
    requires p <= |pat| && ItemAt(pat, p).BackRef?
    ensures var l, next := ItemAt(pat, p).l, ItemAt(pat, p).next;
      && Act(src, pat, caps, s, p) ==
         if !(0 <= l < |caps|) || caps[l].len == UNFINISHED then Stop(Error)
         else if caps[l].len < 0 || |src| - s < caps[l].len || !SameText(src, caps[l].init, s, caps[l].len)
           then Stop(No)
         else Go(caps, s + caps[l].len, next)
  {
    hide ItemAt;
  }

  lemma MatchedAgain(src: string, nodes: seq<Node>, caps: seq<Cap>, s: nat)
    requires nodes != [] && nodes[0].Again? && s <= |src|
    ensures var l := nodes[0].digit as int - '1' as int;
      Matched(src, nodes, caps, s) ==
        if !(0 <= l < |caps|) || caps[l].len == UNFINISHED then Error else
        var i, n := caps[l].init, caps[l].len;
        if n >= 0 && s + n <= |src| && 0 <= i && i + n <= |src| && src[i..i + n] == src[s..s + n] then
          Matched(src, nodes[1..], caps, s + n)
        else No
  {
  }

  lemma SlicesSame(src: string, i: nat, s: nat, n: nat)
    requires i + n <= |src| && s + n <= |src|
    ensures SameText(src, i, s, n) <==> src[i..i + n] == src[s..s + n]
  {
    var t, u := src[i..i + n], src[s..s + n];
    if t == u {
      forall k | i <= k < i + n ensures At(src, k) == At(src, k - i + s) {
        assert t[k - i] == u[k - i];
      }
    }
    if SameText(src, i, s, n) {
      forall k | 0 <= k < n ensures t[k] == u[k] {
        assert At(src, i + k) == At(src, i + k - i + s);
      }
    }
  }

  lemma PairFollows(src: string, pat: string, p: nat, nodes: seq<Node>, caps: seq<Cap>, s: nat)
    requires IsText(pat, p, nodes) && nodes != [] && s <= |src| && Inside(caps, s) && nodes[0].Pair?
    ensures ItemAt(pat, p).Balance? && Follows(src, p, nodes, caps, s, Act(src, pat, caps, s, p))
  {
    NextText(pat, p, nodes);
    hide ItemAt, IsText, Stands, AtomOk, SetOk, SetText, AtomText, Inside;
    var r := Balanced(src, s, nodes[0].b, nodes[0].e);
    if r != -1 {
      InsideLater(caps, s, r);
    }
  }

  lemma OpenFollows(src: string, pat: string, p: nat, nodes: seq<Node>, caps: seq<Cap>, s: nat)
    requires IsText(pat, p, nodes) && nodes != [] && s <= |src| && Inside(caps, s)
    requires nodes[0].OpenCap? || nodes[0].PositionCap?
    ensures ItemAt(pat, p).Open? && Follows(src, p, nodes, caps, s, Act(src, pat, caps, s, p))
  {
    hide IsText, ItemAt, Stands, AtomOk, SetOk, SetText, AtomText, InARow, Takes, Balanced, Most, Least;
    NextText(pat, p, nodes);
  }

  lemma CloseFollows(src: string, pat: string, p: nat, nodes: seq<Node>, caps: seq<Cap>, s: nat)
    requires IsText(pat, p, nodes) && nodes != [] && s <= |src| && Inside(caps, s) && nodes[0].CloseCap?
    ensures ItemAt(pat, p).Close? && Follows(src, p, nodes, caps, s, Act(src, pat, caps, s, p))
  {
    hide IsText, ItemAt, Stands, AtomOk, SetOk, SetText, AtomText, InARow, Takes, Balanced, Most, Least;
    NextText(pat, p, nodes);
  }

  lemma EndFollows(src: string, pat: string, p: nat, nodes: seq<Node>, caps: seq<Cap>, s: nat)
    requires IsText(pat, p, nodes) && nodes != [] && s <= |src| && nodes[0].AtEnd?
    ensures ItemAt(pat, p).EndAnchor? && Follows(src, p, nodes, caps, s, Act(src, pat, caps, s, p))
  {
    hide IsText, ItemAt, Stands, AtomOk, SetOk, SetText, AtomText, InARow, Takes, Balanced, Most, Least;
    NextText(pat, p, nodes);
    assert Matched(src, nodes[1..], caps, s) == Yes(s, caps);
  }

  lemma MarkFollows(src: string, pat: string, p: nat, nodes: seq<Node>, caps: seq<Cap>, s: nat)
    requires IsText(pat, p, nodes) && nodes != [] && s <= |src| && Inside(caps, s)
    requires nodes[0].Piece? ==> nodes[0].x.Once?
    ensures !IsRepeated(ItemAt(pat, p)) && Follows(src, p, nodes, caps, s, Act(src, pat, caps, s, p))
  {
    hide IsText, Matched, Act, ItemAt, Inside, Stands, AtomOk, SetOk, SetText, AtomText;
    match nodes[0]
    case Piece(_, _) => OnceFollows(src, pat, p, nodes, caps, s);
    case Edge(_, _) => EdgeFollows(src, pat, p, nodes, caps, s);
    case Again(_) => AgainFollows(src, pat, p, nodes, caps, s);
    case Pair(_, _) => PairFollows(src, pat, p, nodes, caps, s);
    case CloseCap => CloseFollows(src, pat, p, nodes, caps, s);
    case AtEnd => EndFollows(src, pat, p, nodes, caps, s);
    case _ => OpenFollows(src, pat, p, nodes, caps, s);
  }

  /** The text of nodes matches what the nodes match. */
  lemma {:induction false} TextMatches(src: string, pat: string, p: nat, nodes: seq<Node>, caps: seq<Cap>, s: nat)
    requires IsText(pat, p, nodes) && s <= |src| && Inside(caps, s)
    ensures Gives(src, pat, caps, s, p, Matched(src, nodes, caps, s))
    decreases |nodes|
  {
    hide Inside, Right, Meaning, Follows;
    if nodes == [] {
      StopRight(src, pat, caps, s, p);
      assert Right(src, pat, caps, s, p, [], Yes(s, caps));
    } else if nodes[0].Piece? && !nodes[0].x.Once? {
      RepeatsMatch(src, pat, p, nodes, caps, s);
    } else {
      MarkFollows(src, pat, p, nodes, caps, s);
      MarkMatches(src, pat, p, nodes, caps, s);
    }
  }

  lemma MarkMatches(src: string, pat: string, p: nat, nodes: seq<Node>, caps: seq<Cap>, s: nat)
    requires IsText(pat, p, nodes) && nodes != [] && s <= |src|
    requires !IsRepeated(ItemAt(pat, p)) && Follows(src, p, nodes, caps, s, Act(src, pat, caps, s, p))
    ensures Gives(src, pat, caps, s, p, Matched(src, nodes, caps, s))
    decreases |nodes|, 0
  {
    NextText(pat, p, nodes);
    hide Right, Act, ItemAt, IsText, Inside, Matched;
    var a := Act(src, pat, caps, s, p);
    if a.Stop? {
      StopRight(src, pat, caps, s, p);
      assert Right(src, pat, caps, s, p, [], a.o);
    } else {
      var o := Matched(src, nodes[1..], a.caps, a.s);
      TextMatches(src, pat, a.next, nodes[1..], a.caps, a.s);
      var ks :| Right(src, pat, a.caps, a.s, a.next, ks, o);
      GoRight(src, pat, caps, s, p, ks, o);
      assert Right(src, pat, caps, s, p, ks, o);
    }
  }

  lemma RepeatsMatch(src: string, pat: string, p: nat, nodes: seq<Node>, caps: seq<Cap>, s: nat)
    requires IsText(pat, p, nodes) && nodes != [] && s <= |src| && Inside(caps, s)
    requires nodes[0].Piece? && !nodes[0].x.Once?
    ensures Gives(src, pat, caps, s, p, Matched(src, nodes, caps, s))
    decreases |nodes|, 0
  {
    hide Right, Act, ItemAt, IsText, Inside, Stands, Takes, Single, ClassEnd, Repeated, Never, AtomOk, AtomText,
      Matched;
    NextText(pat, p, nodes);
    var a, x, rest := nodes[0].a, nodes[0].x, nodes[1..];
    assert NodeText(nodes[0]) == AtomText(a) + SuffixText(x);
    var ep := p + |AtomText(a)|;
    var n := InARow(src, a, s);
    AtomEnds(pat, p, a);
    forall t: nat | s <= t <= s + n ensures Gives(src, pat, caps, t, ep + 1, Matched(src, rest, caps, t)) {
      InsideLater(caps, s, t);
      TextMatches(src, pat, ep + 1, rest, caps, t);
    }
    forall k: nat ensures Repeated(src, pat, s, p, ep, k) <==> k <= n {
      RowIs(src, pat, s, p, a, k);
    }
    AtomTakes(src, pat, s, p, a);
    ChoicesMatch(src, pat, p, nodes, caps, s, n);
  }

  lemma ChoicesMatch(src: string, pat: string, p: nat, nodes: seq<Node>, caps: seq<Cap>, s: nat, n: nat)
    requires nodes != [] && nodes[0].Piece? && !nodes[0].x.Once? && s <= |src| && n == InARow(src, nodes[0].a, s)
    requires p <= |pat| && ItemAt(pat, p) == ItemOf(nodes[0], p)
    requires var ep := p + |AtomText(nodes[0].a)|;
      && p < ep < |pat| && RestGives(src, pat, ep + 1, nodes[1..], caps, s, n)
      && UpTo(src, pat, s, p, ep, n) && (n == 0 ==> !Single(src, pat, s, p, ep))
    ensures Gives(src, pat, caps, s, p, Matched(src, nodes, caps, s))
  {
    hide Right, ItemAt, Takes, Single, InARow, UpTo, RestGives, Never, AtomText, Stands, ClassEnd;
    var rest := nodes[1..];
    var ep := p + |AtomText(nodes[0].a)|;
    assert |NodeText(nodes[0])| == |AtomText(nodes[0].a)| + 1;
    assert ItemAt(pat, p).ep == ep;
    match nodes[0].x
    case ZeroOrMore => MostGives(src, pat, p, rest, caps, s, n, n, 0);
    case OneOrMore =>
      if n > 0 {
        MostGives(src, pat, p, rest, caps, s, n, n, 1);
      } else {
        PlusFails(src, pat, caps, s, p);
        assert Right(src, pat, caps, s, p, [], No);
      }
    case AtMostOne => MostGives(src, pat, p, rest, caps, s, n, if n == 0 then 0 else 1, 0);
    case Fewest => LeastGives(src, pat, p, rest, caps, s, n);
  }

  lemma RowIs(src: string, pat: string, s: nat, p: nat, a: Atom, k: nat)
    requires AtomOk(a) && Stands(pat, p, AtomText(a)) && p + |AtomText(a)| <= |pat| && s <= |src|
    ensures Repeated(src, pat, s, p, p + |AtomText(a)|, k) <==> k <= InARow(src, a, s)
  {
    hide Single, Takes, Stands, AtomOk, AtomText;
    var ep, n := p + |AtomText(a)|, InARow(src, a, s);
    forall t: nat ensures Single(src, pat, t, p, ep) <==> t < |src| && Takes(a, src[t]) {
      AtomTakes(src, pat, t, p, a);
    }
    hide InARow;
    assert !Single(src, pat, s + n, p, ep);
    if k > n {
      assert s <= s + n < s + k;
    }
  }

  /** The right outcome of a text is what its nodes match, and nothing else. */
  lemma OnlyMatched(src: string, pat: string, p: nat, nodes: seq<Node>, s: nat, ks: seq<Choice>, o: Outcome)
    requires IsText(pat, p, nodes) && s <= |src| && Right(src, pat, [], s, p, ks, o)
    ensures o == Matched(src, nodes, [], s)
  {
    hide Right, Matched, Text, TextOk;
    TextMatches(src, pat, p, nodes, [], s);
    var ks' :| Right(src, pat, [], s, p, ks', Matched(src, nodes, [], s));
    RightUnique(src, pat, [], s, p, ks, o, ks', Matched(src, nodes, [], s));
  }

  /** string.find and string.match with a pattern that one has written as items, behind ^ or not:
      the first place from init on where backtracking does not fail. */
  method FindText(src: string, anchored: bool, nodes: seq<Node>, init: nat) returns (f: Found)
    requires init <= |src| && TextOk(nodes) && (!anchored ==> At(Text(nodes), 0) != '^')
    ensures f.Found? ==>
      && init <= f.start <= |src| && (anchored ==> f.start == init)
      && Matched(src, nodes, [], f.start) == Yes(f.e, f.caps)
      && forall s :: init <= s < f.start ==> Matched(src, nodes, [], s) == No
    ensures f == Raised ==>
      exists at :: init <= at <= |src| && (anchored ==> at == init) && Matched(src, nodes, [], at) == Error
        && forall s :: init <= s < at ==> Matched(src, nodes, [], s) == No
    ensures f == NotFound ==>
      forall s :: init <= s <= |src| && (anchored ==> s == init) ==> Matched(src, nodes, [], s) == No
  {
    hide Right, First, Never, Matched, TextOk, Text, Inside;
    var pat := if anchored then ['^'] + Text(nodes) else Text(nodes);
    assert pat[Body(pat)..] == Text(nodes);
    ghost var at, ks;
    f, at, ks := Find(src, pat, init);
    forall s | init <= s <= |src| && Never(src, pat, [], s, Body(pat)) ensures Matched(src, nodes, [], s) == No {
      NeverRight(src, pat, s, Body(pat));
      OnlyMatched(src, pat, Body(pat), nodes, s, [], No);
    }
    match f
    case NotFound =>
    case Raised =>
      FirstRight(src, pat, at, Body(pat), ks, Error);
      OnlyMatched(src, pat, Body(pat), nodes, at, ks, Error);
    case Found(_, e, caps) =>
      FirstRight(src, pat, at, Body(pat), ks, Yes(e, caps));
      OnlyMatched(src, pat, Body(pat), nodes, at, ks, Yes(e, caps));
  }

  lemma NeverRight(src: string, pat: string, s: nat, p: nat)
    requires p <= |pat| && Never(src, pat, [], s, p)
    ensures Right(src, pat, [], s, p, [], No)
  {
    hide Never;
  }

  lemma FirstRight(src: string, pat: string, s: nat, p: nat, ks: seq<Choice>, o: Outcome)
    requires p <= |pat| && First(src, pat, [], s, p, ks, o)
    ensures Right(src, pat, [], s, p, ks, o)
  {
  }

  // ----------------------------------------------------------------- examples

  lemma OneNode(src: string, pat: string, node: Node, caps: seq<Cap>, s: nat, o: Outcome)
    requires pat == NodeText(node) && NodeOk(node, "") && s <= |src| && Inside(caps, s)
    requires o == Matched(src, [node], caps, s)
    ensures Gives(src, pat, caps, s, 0, o)
  {
    assert Text([node]) == pat + Text([]) == pat && pat[0..] == pat;
    assert [node][1..] == [];
    assert Text([]) == "" && TextOk([]);
    hide Matched, Inside;
    TextMatches(src, pat, 0, [node], caps, s);
  }

  /** An atom alone in a pattern, with each suffix. */
  lemma AtomMatches(src: string, a: Atom, caps: seq<Cap>, s: nat)
    requires s <= |src|
    ensures var n := InARow(src, a, s);
      && Matched(src, [Piece(a, Once)], caps, s) == (if n == 0 then No else Yes(s + 1, caps))
      && Matched(src, [Piece(a, ZeroOrMore)], caps, s) == Yes(s + n, caps)
      && Matched(src, [Piece(a, OneOrMore)], caps, s) == (if n == 0 then No else Yes(s + n, caps))
      && Matched(src, [Piece(a, AtMostOne)], caps, s) == Yes(if n == 0 then s else s + 1, caps)
      && Matched(src, [Piece(a, Fewest)], caps, s) == Yes(s, caps)
  {
    hide InARow, Takes;
    assert forall x :: [Piece(a, x)][1..] == [];
    assert forall t: nat :: t <= |src| ==> Matched(src, [], caps, t) == Yes(t, caps);
  }

  /** A character with a suffix: * takes all that stand in a row, + all but needs one, ? one if
      there is one, and - none. */
  lemma PlainRepeats(src: string, caps: seq<Cap>, s: nat, c: char, n: nat)
    requires c !in "\0()%.[" && s + n <= |src| && Inside(caps, s)
    requires (forall i :: s <= i < s + n ==> src[i] == c) && (s + n < |src| ==> src[s + n] != c)
    ensures Gives(src, [c, '*'], caps, s, 0, Yes(s + n, caps))
    ensures Gives(src, [c, '+'], caps, s, 0, if n == 0 then No else Yes(s + n, caps))
    ensures Gives(src, [c, '?'], caps, s, 0, Yes(if n == 0 then s else s + 1, caps))
    ensures Gives(src, [c, '-'], caps, s, 0, Yes(s, caps))
  {
    var a := Plain(c);
    var r := InARow(src, a, s);
    assert r == n;
    AtomMatches(src, a, caps, s);
    hide Inside, Gives, Matched, InARow;
    OneNode(src, [c, '*'], Piece(a, ZeroOrMore), caps, s, Yes(s + n, caps));
    OneNode(src, [c, '+'], Piece(a, OneOrMore), caps, s, if n == 0 then No else Yes(s + n, caps));
    OneNode(src, [c, '?'], Piece(a, AtMostOne), caps, s, Yes(if n == 0 then s else s + 1, caps));
    OneNode(src, [c, '-'], Piece(a, Fewest), caps, s, Yes(s, caps));
  }

  /** A character of which there are n in a row is matched n / 2 times so that it can be matched
      again, and the capture tells where. */
  lemma CaptureAgain(src: string, s: nat, c: char, n: nat)
    requires c !in "\0()%.[" && s + n <= |src|
    requires (forall i :: s <= i < s + n ==> src[i] == c) && (s + n < |src| ==> src[s + n] != c)
    ensures Gives(src, ['(', c, '*', ')', '%', '1'], [], s, 0, Yes(s + n / 2 * 2, [Cap(s, n / 2)]))
  {
    var a := Plain(c);
    var nodes := [OpenCap, Piece(a, ZeroOrMore), CloseCap, Again('1')];
    var pat := ['(', c, '*', ')', '%', '1'];
    assert nodes[1..] == [Piece(a, ZeroOrMore), CloseCap, Again('1')];
    assert InARow(src, a, s) == n;
    PutBefore(Again('1'), []);
    PutBefore(CloseCap, [Again('1')]);
    PutBefore(Piece(a, ZeroOrMore), [CloseCap, Again('1')]);
    PutBefore(OpenCap, nodes[1..]);
    assert pat[0..] == Text(nodes);
    assert [] + [Cap(s, UNFINISHED)] == [Cap(s, UNFINISHED)] && nodes[1..][1..] == nodes[2..];
    assert Matched(src, nodes, [], s) == Matched(src, nodes[1..], [Cap(s, UNFINISHED)], s);
    assert Matched(src, nodes, [], s) == Most(src, nodes[2..], [Cap(s, UNFINISHED)], s, n, 0);
    HalfMatched(src, s, c, n, n, nodes[2..]);
    hide Gives, InARow;
    TextMatches(src, pat, 0, nodes, [], s);
  }

  lemma PutBefore(node: Node, rest: seq<Node>)
    requires TextOk(rest) && NodeOk(node, Text(rest))
    ensures TextOk([node] + rest) && Text([node] + rest) == NodeText(node) + Text(rest)
  {
    assert ([node] + rest)[1..] == rest;
  }

  /** Of k and fewer repetitions the first that can be matched again is n / 2. */
  lemma {:induction false} HalfMatched(src: string, s: nat, c: char, n: nat, k: nat, rest: seq<Node>)
    requires rest == [CloseCap, Again('1')] && n / 2 <= k <= n && s + n <= |src|
    requires (forall i :: s <= i < s + n ==> src[i] == c) && (s + n < |src| ==> src[s + n] != c)
    ensures Most(src, rest, [Cap(s, UNFINISHED)], s, k, 0) == Yes(s + n / 2 * 2, [Cap(s, n / 2)])
    decreases k
  {
    var caps := [Cap(s, UNFINISHED)];
    var again := rest[1..];
    assert ToClose(caps) == 0 && caps[0 := Cap(s, k)] == [Cap(s, k)] && again[1..] == [];
    if s + k + k <= |src| {
      if k == n / 2 {
        assert src[s..s + k] == src[s + k..s + k + k];
      } else {
        assert src[s..s + k][n - k] == c && src[s + k..s + k + k][n - k] == src[s + n];
      }
    }
    assert Matched(src, rest, caps, s + k) == Matched(src, again, [Cap(s, k)], s + k);
    assert Matched(src, again, [Cap(s, k)], s + k) == if k == n / 2 then Yes(s + k + k, [Cap(s, k)]) else No;
    if k > n / 2 {
      HalfMatched(src, s, c, n, k - 1, rest);
    }
  }

  /** The marks: a place is captured by (), and $ matches only at the end of the text. */
  lemma Marks(src: string, caps: seq<Cap>, s: nat)
    requires s <= |src| && Inside(caps, s)
    ensures Gives(src, "()", caps, s, 0, if |caps| < 32 then Yes(s, caps + [Cap(s, POSITION)]) else Error)
    ensures Gives(src, "$", caps, s, 0, if s == |src| then Yes(s, caps) else No)
  {
    assert [PositionCap][1..] == [] && [AtEnd][1..] == [];
    assert Matched(src, [], caps + [Cap(s, POSITION)], s) == Yes(s, caps + [Cap(s, POSITION)]);
    hide Inside, Gives;
    OneNode(src, "()", PositionCap, caps, s, if |caps| < 32 then Yes(s, caps + [Cap(s, POSITION)]) else Error);
    OneNode(src, "$", AtEnd, caps, s, if s == |src| then Yes(s, caps) else No);
  }

  /** A balanced text is matched up to where it is first balanced. */
  lemma BalancedText(src: string, caps: seq<Cap>, s: nat, b: char, e: char, r: nat)
    requires b != '\0' && e != '\0' && b != e && Inside(caps, s)
    requires s < r <= |src| && src[s] == b && Depth(src, s, r, b, e) == 0
    requires forall j :: s < j < r ==> Depth(src, s, j, b, e) > 0
    ensures Gives(src, ['%', 'b', b, e], caps, s, 0, Yes(r, caps))
  {
    BalancedIs(src, s, b, e);
    assert Balanced(src, s, b, e) == r;
    assert [Pair(b, e)][1..] == [] && Matched(src, [], caps, r) == Yes(r, caps);
    hide Inside, Gives;
    OneNode(src, ['%', 'b', b, e], Pair(b, e), caps, s, Yes(r, caps));
  }

  /** What stands for one character matches it: itself, any, a range, and what is not in a range. */
  lemma OneCharacter(src: string, caps: seq<Cap>, s: nat, c: char, lo: char, hi: char)
    requires c !in "\0()%.[$" && lo !in "\0%]-^" && hi !in "\0%]" && lo < hi && s < |src| && Inside(caps, s)
    ensures Gives(src, [c], caps, s, 0, if src[s] == c then Yes(s + 1, caps) else No)
    ensures Gives(src, ".", caps, s, 0, Yes(s + 1, caps))
    ensures Gives(src, ['[', lo, '-', hi, ']'], caps, s, 0, if lo <= src[s] <= hi then Yes(s + 1, caps) else No)
    ensures Gives(src, ['[', '^', lo, '-', hi, ']'], caps, s, 0, if lo <= src[s] <= hi then No else Yes(s + 1, caps))
  {
    var es := [Range(lo, hi)];
    assert es[1..] == [] && ElementsText([]) == "";
    assert ElementsText(es) == [lo, '-', hi] + "" == [lo, '-', hi];
    assert es[0] in es;
    hide Inside;
    OneAtom(src, [c], Plain(c), caps, s);
    OneAtom(src, ".", AnyChar, caps, s);
    OneAtom(src, ['[', lo, '-', hi, ']'], Set(false, es), caps, s);
    OneAtom(src, ['[', '^', lo, '-', hi, ']'], Set(true, es), caps, s);
  }

  lemma OneAtom(src: string, pat: string, a: Atom, caps: seq<Cap>, s: nat)
    requires pat == AtomText(a) && AtomOk(a) && a != Plain('$') && s < |src| && Inside(caps, s)
    ensures Gives(src, pat, caps, s, 0, if Takes(a, src[s]) then Yes(s + 1, caps) else No)
  {
    hide Inside, Takes, Gives, AtomText, AtomOk;
    AtomMatches(src, a, caps, s);
    OneNode(src, pat, Piece(a, Once), caps, s, if Takes(a, src[s]) then Yes(s + 1, caps) else No);
  }

  /** The letters of classes stand for these characters, and in upper case for all others. */
  lemma ClassLetters(src: string, caps: seq<Cap>, s: nat, cl: char, up: char)
    requires s < |src| && Inside(caps, s)
    requires 'a' <= cl <= 'z' && cl !in "bf" && up as int == cl as int - 32
    ensures var x := src[s];
      var lower, upper, digit := 'a' <= x <= 'z', 'A' <= x <= 'Z', '0' <= x <= '9';
      var fits := if cl == 'a' then lower || upper
        else if cl == 'c' then x as int < 32 || x as int == 127
        else if cl == 'd' then digit
        else if cl == 'l' then lower
        else if cl == 'p' then 33 <= x as int <= 126 && !(lower || upper || digit)
        else if cl == 's' then x as int == 32 || 9 <= x as int <= 13
        else if cl == 'u' then upper
        else if cl == 'w' then lower || upper || digit
        else if cl == 'x' then digit || 'a' <= x <= 'f' || 'A' <= x <= 'F'
        else if cl == 'z' then x as int == 0
        else x == cl;
      && Gives(src, ['%', cl], caps, s, 0, if fits then Yes(s + 1, caps) else No)
      && (cl in "acdlpsuwxz" ==> Gives(src, ['%', up], caps, s, 0, if fits then No else Yes(s + 1, caps)))
  {
    hide Inside, Gives;
    OneAtom(src, ['%', cl], Letter(cl), caps, s);
    OneAtom(src, ['%', up], Letter(up), caps, s);
  }
}
