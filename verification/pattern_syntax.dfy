/** Patterns (lstrlib.c): characters, sets, and the items that a pattern is made of. A pattern
    is a C string, so reading at its end gives '\0'. */
module PatternSyntax {
  import opened Shared

  const NUL := '\0'

  function At(s: string, i: int): char { if 0 <= i < |s| then s[i] else NUL }

  predicate IsLower(c: char) { 'a' <= c <= 'z' }
  predicate IsUpper(c: char) { 'A' <= c <= 'Z' }
  predicate IsAlpha(c: char) { IsLower(c) || IsUpper(c) }
  predicate IsAlnum(c: char) { IsAlpha(c) || IsDigit(c) }
  predicate IsXdigit(c: char) { IsDigit(c) || 'a' <= c <= 'f' || 'A' <= c <= 'F' }
  predicate IsSpace(c: char) { c == ' ' || 9 as char <= c <= 13 as char }
  predicate IsCntrl(c: char) { c < ' ' || c == 127 as char }
  predicate IsPunct(c: char) { '!' <= c <= '~' && !IsAlnum(c) }

  function ToLower(c: char): char { if IsUpper(c) then c + ('a' - 'A') else c }

  /** match_class: does c belong to the class named by the letter cl? An upper case letter
      names the complement; other characters stand for themselves. */
  function InClass(c: char, cl: char): bool {
    if !IsAlpha(cl) then c == cl else
    var l := ToLower(cl);
    if l in "acdlpsuwxz" then
      (if l == 'a' then IsAlpha(c)
       else if l == 'c' then IsCntrl(c)
       else if l == 'd' then IsDigit(c)
       else if l == 'l' then IsLower(c)
       else if l == 'p' then IsPunct(c)
       else if l == 's' then IsSpace(c)
       else if l == 'u' then IsUpper(c)
       else if l == 'w' then IsAlnum(c)
       else if l == 'x' then IsXdigit(c)
       else c == NUL) == IsLower(cl)
    else c == cl
  }

  // ------------------------------------------------------------------- sets

  /** What may stand between [ and ]. */
  datatype Element = Class(cl: char) | Range(lo: char, hi: char)

  predicate Includes(e: Element, c: char) { if e.Class? then InClass(c, e.cl) else e.lo <= c <= e.hi }

  /** The elements of a set from place i to its closing bracket at ec. */
  function Elements(pat: string, i: int, ec: int): seq<Element>
    requires 0 <= i && ec <= |pat|
    decreases ec - i
  {
    if i >= ec then []
    else if pat[i] == '%' then [Class(At(pat, i + 1))] + Elements(pat, i + 2, ec)
    else if At(pat, i + 1) == '-' && i + 2 < ec then [Range(pat[i], pat[i + 2])] + Elements(pat, i + 3, ec)
    else [Range(pat[i], pat[i])] + Elements(pat, i + 1, ec)
  }

  /** The set written at p, whose closing bracket is at ec; a leading ^ complements it. */
  predicate InSet(pat: string, p: int, ec: int, c: char)
    requires 0 <= p && ec <= |pat|
  {
    if At(pat, p + 1) == '^' then !Any(Elements(pat, p + 2, ec), c) else Any(Elements(pat, p + 1, ec), c)
  }

  predicate Any(es: seq<Element>, c: char) { exists e :: e in es && Includes(e, c) }

  lemma AnyStep(pat: string, i: int, ec: int, c: char)
    requires 0 <= i < ec <= |pat|
    ensures Any(Elements(pat, i, ec), c) <==>
      Includes(ElementAt(pat, i, ec), c) || Any(Elements(pat, AfterElement(pat, i, ec), ec), c)
  {
    var e, rest := ElementAt(pat, i, ec), Elements(pat, AfterElement(pat, i, ec), ec);
    assert Elements(pat, i, ec) == [e] + rest;
    hide InClass;
    assert forall x :: x in [e] + rest <==> x == e || x in rest;
  }

  /** matchbracketclass */
  method MatchBracketClass(c: char, pat: string, p0: int, ec: int) returns (b: bool)
    requires 0 <= p0 && ec <= |pat|
    ensures b == InSet(pat, p0, ec, c)
  {
    var sig, p := true, p0;
    if At(pat, p + 1) == '^' {
      sig, p := false, p + 1;
    }
    var found := FindElement(c, pat, p + 1, ec);
    b := found == sig;
  }

  /** The loop over the elements of a set. */
  method FindElement(c: char, pat: string, first: int, ec: int) returns (found: bool)
    requires 0 <= first && ec <= |pat|
    ensures found == Any(Elements(pat, first, ec), c)
  {
    hide Any, Elements, InClass, At;
    var p := first;
    while p < ec
      invariant first <= p && (Any(Elements(pat, first, ec), c) <==> Any(Elements(pat, p, ec), c))
      decreases ec - p
    {
      AnyStep(pat, p, ec, c);
      var e := ElementAt(pat, p, ec);
      if Includes(e, c) {
        return true;
      }
      p := AfterElement(pat, p, ec);
    }
    NoElements(pat, p, ec, c);
    return false;
  }

  lemma NoElements(pat: string, i: int, ec: int, c: char)
    requires 0 <= i && ec <= i && ec <= |pat|
    ensures !Any(Elements(pat, i, ec), c)
  {
  }

  function ElementAt(pat: string, i: int, ec: int): Element
    requires 0 <= i < ec <= |pat|
  {
    if pat[i] == '%' then Class(At(pat, i + 1))
    else if At(pat, i + 1) == '-' && i + 2 < ec then Range(pat[i], pat[i + 2])
    else Range(pat[i], pat[i])
  }

  function AfterElement(pat: string, i: int, ec: int): int
    requires 0 <= i < ec <= |pat|
  {
    if pat[i] == '%' then i + 2 else if At(pat, i + 1) == '-' && i + 2 < ec then i + 3 else i + 1
  }
}
