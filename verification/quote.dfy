/** Format option %q (lstrlib.c) against the string reader of the lexer (llex.c). */
module Quote {
  import opened Shared

  const LF: char := 10 as char
  const CR: char := 13 as char
  const NUL: char := 0 as char

  /** What addquoted writes for one character. */
  function Escaped(c: char): string {
    if c == '"' || c == '\\' || c == LF then ['\\', c] else if c == CR then "\\r" else if c == NUL then "\\000" else [c]
  }

  function Body(s: string): string { if s == "" then "" else Escaped(s[0]) + Body(s[1..]) }

  function Quoted(s: string): string { "\"" + Body(s) + "\"" }

  lemma {:induction false} BodyMore(s: string, i: nat)
    requires i < |s|
    ensures Body(s[..i + 1]) == Body(s[..i]) + Escaped(s[i])
    decreases i
  {
    if i == 0 {
      assert s[..1][1..] == "" && s[..0] == "" && s[..1][0] == s[0];
      assert Body(s[..1]) == Escaped(s[0]) + Body(s[..1][1..]);
    } else {
      BodyMore(s[1..], i - 1);
      assert s[..i + 1][1..] == s[1..][..i] && s[..i][1..] == s[1..][..i - 1] && s[1..][i - 1] == s[i];
      assert s[..i + 1][0] == s[0] && s[..i][0] == s[0];
      assert Body(s[..i + 1]) == Escaped(s[0]) + Body(s[1..][..i])
          && Body(s[..i]) == Escaped(s[0]) + Body(s[1..][..i - 1]);
    }
  }

  /** addquoted */
  method AddQuoted(s: string) returns (b: string)
    ensures b == Quoted(s)
  {
    b := "\"";
    var i := 0;
    assert Body(s[..0]) == "";
    while i < |s|
      invariant 0 <= i <= |s| && b == "\"" + Body(s[..i])
    {
      BodyMore(s, i);
      var c := s[i];
      if c == '"' || c == '\\' || c == LF {
        b := b + ['\\'];
        b := b + [c];
      } else if c == CR {
        b := b + "\\r";
      } else if c == NUL {
        b := b + "\\000";
      } else {
        b := b + [c];
      }
      i := i + 1;
    }
    assert s[..i] == s;
    b := b + "\"";
  }

  // ----------------------------------------------------------------- reading

  datatype Why = Unfinished | TooLarge | TooManyLines

  /** The text of a string, what comes after it, and the line then. */
  datatype Read = Got(text: string, rest: string, line: int) | Fail(why: Why)

  predicate IsNewline(c: char) { c == LF || c == CR }

  function Named(c: char): char {
    match c
    case 'a' => 7 as char
    case 'b' => 8 as char
    case 'f' => 12 as char
    case 'n' => LF
    case 'r' => CR
    case 't' => 9 as char
    case 'v' => 11 as char
    case _ => c
  }

  /** inclinenumber takes a newline of one or two characters. */
  function NewlineLength(t: string): nat
    requires t != "" && IsNewline(t[0])
  {
    if |t| > 1 && IsNewline(t[1]) && t[1] != t[0] then 2 else 1
  }

  /** How many of the first characters, at most n, are digits. */
  function Digits(t: string, n: nat): (d: nat)
    ensures d <= n && d <= |t|
  {
    if n == 0 || t == "" || !IsDigit(t[0]) then 0 else 1 + Digits(t[1..], n - 1)
  }

  function Decimal(t: string): nat
    requires forall i :: 0 <= i < |t| ==> IsDigit(t[i])
  {
    if t == "" then 0 else assert IsDigit(t[|t| - 1]); 10 * Decimal(t[..|t| - 1]) + (t[|t| - 1] as int - '0' as int)
  }

  lemma {:induction false} DigitsAre(t: string, n: nat)
    ensures forall i :: 0 <= i < Digits(t, n) ==> IsDigit(t[i])
    ensures Digits(t, n) < n && Digits(t, n) < |t| ==> !IsDigit(t[Digits(t, n)])
    decreases n
  {
    if !(n == 0 || t == "" || !IsDigit(t[0])) {
      DigitsAre(t[1..], n - 1);
    }
  }

  function Cons(c: char, r: Read): Read { if r.Got? then Got([c] + r.text, r.rest, r.line) else r }

  /** read_string after its opening delimiter. */
  function Lex(t: string, line: int, del: char): Read
    decreases |t|
  {
    if t == "" then Fail(Unfinished)
    else if t[0] == del then Got("", t[1..], line)
    else if IsNewline(t[0]) then Fail(Unfinished)
    else if t[0] != '\\' then Cons(t[0], Lex(t[1..], line, del))
    else if |t| == 1 then Fail(Unfinished)
    else if IsNewline(t[1]) then
      (if line + 1 >= MAX_INT then Fail(TooManyLines) else Cons(LF, Lex(t[1 + NewlineLength(t[1..])..], line + 1, del)))
    else if IsDigit(t[1]) then
      var n := Digits(t[1..], 3);
      DigitsAre(t[1..], 3);
      var c := Decimal(t[1..1 + n]);
      (if c > 255 then Fail(TooLarge) else Cons(c as char, Lex(t[1 + n..], line, del)))
    else Cons(Named(t[1]), Lex(t[2..], line, del))
  }

  /** Lines in a string. */
  function Lines(s: string): nat { if s == "" then 0 else Lines(s[1..]) + if s[0] == LF then 1 else 0 }

  /** Can the reader count the lines? */
  predicate Countable(s: string, line: int) { Lines(s) == 0 || line + Lines(s) < MAX_INT }

  /** One escaped character is read back; what follows it does not matter, except that no bare
      carriage return does. */
  lemma LexEscaped(c: char, t: string, line: int)
    requires c < 256 as char && (t == "" || t[0] != CR)
    ensures Lex(Escaped(c) + t, line, '"') == if c == LF then (if line + 1 >= MAX_INT then Fail(TooManyLines)
      else Cons(c, Lex(t, line + 1, '"'))) else Cons(c, Lex(t, line, '"'))
  {
    var e := Escaped(c) + t;
    if c == LF {
      assert e[1..][0] == LF && e[2..] == t;
      assert NewlineLength(e[1..]) == 1;
    } else if c == '"' || c == '\\' {
      assert e[2..] == t && Named(c) == c;
    } else if c == CR {
      assert e[2..] == t;
    } else if c == NUL {
      ZeroDigits(e[1..], t);
      assert e[4..] == t && e[1..4] == "000";
    } else {
      assert e[1..] == t;
    }
  }

  lemma ZeroDigits(e: string, t: string)
    requires e == "000" + t
    ensures Digits(e, 3) == 3 && Decimal("000") == 0
  {
    assert e[1..] == "00" + t && e[1..][1..] == "0" + t && e[1..][1..][1..] == t;
    assert Digits(e[1..][1..][1..], 0) == 0;
    assert Digits(e[1..][1..], 1) == 1;
    assert Digits(e[1..], 2) == 2;
    assert "000"[..2] == "00" && "00"[..1] == "0" && "0"[..0] == "";
    assert Decimal("0") == 0 && Decimal("00") == 0;
  }

  lemma {:induction false} LexBody(s: string, t: string, line: int)
    requires forall i :: 0 <= i < |s| ==> s[i] < 256 as char
    ensures Lex(Body(s) + "\"" + t, line, '"') ==
      if Countable(s, line) then Got(s, t, line + Lines(s)) else Fail(TooManyLines)
    decreases |s|
  {
    if s == "" {
      assert Body(s) + "\"" + t == "\"" + t;
    } else {
      hide *;
      var rest, line' := Body(s[1..]) + "\"" + t, line + if s[0] == LF then 1 else 0;
      BodyStep(s, t);
      NoReturn(s[1..], t);
      LexEscaped(s[0], rest, line);
      LexBody(s[1..], t, line');
      CountStep(s, t, line, Lex(rest, line', '"'));
    }
  }

  lemma BodyStep(s: string, t: string)
    requires s != ""
    ensures Body(s) + "\"" + t == Escaped(s[0]) + (Body(s[1..]) + "\"" + t)
  {
    hide Escaped;
    assert Body(s) == Escaped(s[0]) + Body(s[1..]);
  }

  /** The lines of the rest, and the first character's own. */
  lemma CountStep(s: string, t: string, line: int, r: Read)
    requires s != ""
    requires var line' := line + if s[0] == LF then 1 else 0;
      r == if Countable(s[1..], line') then Got(s[1..], t, line' + Lines(s[1..])) else Fail(TooManyLines)
    ensures (if s[0] == LF && line + 1 >= MAX_INT then Fail(TooManyLines) else Cons(s[0], r))
         == if Countable(s, line) then Got(s, t, line + Lines(s)) else Fail(TooManyLines)
  {
    assert s == [s[0]] + s[1..];
  }

  lemma NoReturn(s: string, t: string)
    ensures (Body(s) + "\"" + t)[0] != CR
  {
    if s != "" {
      assert (Body(s) + "\"" + t)[0] == Escaped(s[0])[0];
    }
  }

  /** What %q writes, the lexer reads back as the same string: for every string of bytes and
      whatever follows, unless the chunk has too many lines already. */
  lemma QuoteRoundTrip(s: string, t: string, line: int)
    requires forall i :: 0 <= i < |s| ==> s[i] < 256 as char
    ensures var q := Quoted(s) + t;
      q[0] == '"' && Lex(q[1..], line, '"') ==
        if Countable(s, line) then Got(s, t, line + Lines(s)) else Fail(TooManyLines)
  {
    assert (Quoted(s) + t)[1..] == Body(s) + "\"" + t;
    LexBody(s, t, line);
  }

  // ---------------------------------------------------- the escapes one by one

  /** The text u reads as c and then as t does: what is wrong with t is wrong with u. */
  predicate ReadsAs(u: string, c: int, t: string, line: int, line': int, del: char) {
    match Lex(t, line', del)
    case Got(text, rest, l) => 0 <= c < 256 && Lex(u, line, del) == Got([c as char] + text, rest, l)
    case Fail(why) => Lex(u, line, del) == Fail(why)
  }

  /** The letters of section 2.1 of the Lua 5.1 manual. */
  lemma LetterRead(l: char, c: int, t: string, line: int, del: char)
    requires del != '\\'
    requires (l, c) in {('a', 7), ('b', 8), ('f', 12), ('n', 10), ('r', 13), ('t', 9), ('v', 11)}
    ensures ReadsAs(['\\', l] + t, c, t, line, line, del)
  {
    LetterLex(l, t, line, del);
    hide Lex;
  }

  lemma LetterLex(c: char, t: string, line: int, del: char)
    requires del != '\\' && !IsNewline(c) && !IsDigit(c)
    ensures Lex(['\\', c] + t, line, del) == Cons(Named(c), Lex(t, line, del))
  {
    var u := ['\\', c] + t;
    assert u[2..] == t;
  }

  /** Other characters stand for themselves, with a backslash or, but for the delimiter, without. */
  lemma OthersRead(c: char, t: string, line: int, del: char)
    requires del != '\\' && c < 256 as char && c != 10 as char && c != 13 as char
    ensures c !in "abfnrtv" && !('0' <= c <= '9') ==> ReadsAs(['\\', c] + t, c as int, t, line, line, del)
    ensures c != '\\' && c != del ==> ReadsAs([c] + t, c as int, t, line, line, del)
  {
    assert ([c] + t)[1..] == t;
    if !IsDigit(c) {
      LetterLex(c, t, line, del);
    }
  }

  /** A backslash before a line end stands for one newline; two different characters make one
      line end. */
  lemma LineEndsRead(c: char, t: string, line: int, del: char)
    requires del != '\\' && (c == 10 as char || c == 13 as char) && line + 1 < MAX_INT
    ensures (t == "" || (t[0] != 10 as char && t[0] != 13 as char) || t[0] == c) ==>
      ReadsAs(['\\', c] + t, 10, t, line, line + 1, del)
    ensures t != "" && t[0] != c && (t[0] == 10 as char || t[0] == 13 as char) ==>
      ReadsAs(['\\', c] + t, 10, t[1..], line, line + 1, del)
  {
    var u := ['\\', c] + t;
    assert u[1..] == [c] + t && u[2..] == t;
    assert |u| > 2 ==> u[3..] == t[1..];
  }

  /** Up to three digits give the code of a character. */
  lemma DigitsRead(a: nat, b: nat, c: nat, t: string, line: int, del: char)
    requires a < 10 && b < 10 && c < 10 && del != '\\'
    ensures var code, u := 100 * a + 10 * b + c, "\\" + [DigitOf(a), DigitOf(b), DigitOf(c)] + t;
      if code > 255 then Lex(u, line, del) == Fail(TooLarge) else ReadsAs(u, code, t, line, line, del)
    ensures t == "" || !('0' <= t[0] <= '9') ==>
      && ReadsAs("\\" + [DigitOf(b), DigitOf(c)] + t, 10 * b + c, t, line, line, del)
      && ReadsAs("\\" + [DigitOf(c)] + t, c, t, line, line, del)
  {
    DigitsLex([DigitOf(a), DigitOf(b), DigitOf(c)], t, line, del);
    DecimalIs(a, b, c);
    if t == "" || !IsDigit(t[0]) {
      DigitsLex([DigitOf(b), DigitOf(c)], t, line, del);
      DigitsLex([DigitOf(c)], t, line, del);
    }
    hide Lex, Decimal;
  }

  function DigitOf(d: nat): char
    requires d < 10
  {
    (48 + d) as char
  }

  lemma DecimalIs(a: nat, b: nat, c: nat)
    requires a < 10 && b < 10 && c < 10
    ensures Decimal([DigitOf(a), DigitOf(b), DigitOf(c)]) == 100 * a + 10 * b + c
    ensures Decimal([DigitOf(b), DigitOf(c)]) == 10 * b + c && Decimal([DigitOf(c)]) == c
  {
    var x, y, z := DigitOf(a), DigitOf(b), DigitOf(c);
    assert [x, y, z][..2] == [x, y] && [x, y][..1] == [x] && [x][..0] == "" && [y, z][..1] == [y] && [z][..0] == "";
    assert Decimal([x]) == a && Decimal([y]) == b && Decimal([z]) == c && Decimal([x, y]) == 10 * a + b;
  }

  lemma DigitsLex(ds: string, t: string, line: int, del: char)
    requires 1 <= |ds| <= 3 && (forall i :: 0 <= i < |ds| ==> IsDigit(ds[i])) && del != '\\'
    requires |ds| == 3 || t == "" || !IsDigit(t[0])
    ensures Lex("\\" + ds + t, line, del) ==
      if Decimal(ds) > 255 then Fail(TooLarge) else Cons(Decimal(ds) as char, Lex(t, line, del))
  {
    var u := "\\" + ds + t;
    assert u[1..] == ds + t && u[1 + |ds|..] == t && u[1..1 + |ds|] == ds && u[1] == ds[0];
    DigitsMeasured(ds + t, 3, |ds|);
    hide Decimal, Digits;
  }

  /** The string ends at its delimiter, and at nothing else: not at the end of the input or at a
      line end. */
  lemma EndRead(t: string, line: int, del: char)
    requires del == '"' || del == '\''
    ensures Lex([del] + t, line, del) == Got("", t, line)
    ensures Lex("", line, del) == Lex("\\", line, del) == Fail(Unfinished)
    ensures Lex([10 as char] + t, line, del) == Lex([13 as char] + t, line, del) == Fail(Unfinished)
  {
    assert ([del] + t)[1..] == t;
  }

  // --------------------------------------------------------------- the reader

  function Before(acc: string, r: Read): Read { if r.Got? then Got(acc + r.text, r.rest, r.line) else r }

  lemma BeforeCons(acc: string, c: char, r: Read)
    ensures Before(acc, Cons(c, r)) == Before(acc + [c], r)
  {
    if r.Got? {
      assert acc + ([c] + r.text) == acc + [c] + r.text;
    }
  }

  /** The lexer: the current character is the first of the input not yet taken. */
  class LexState {
    const input: string
    var pos: nat
    var linenumber: int
    var buff: string

    ghost predicate Valid()
      reads this
    {
      pos <= |input|
    }

    constructor (text: string, line: int)
      ensures Valid() && input == text && pos == 0 && linenumber == line && buff == ""
    {
      input, pos, linenumber, buff := text, 0, line, "";
    }

    ghost function Rest(): string
      requires Valid()
      reads this
    {
      input[pos..]
    }

    /** inclinenumber */
    method IncLineNumber() returns (ok: bool)
      requires Valid() && pos < |input| && IsNewline(input[pos])
      modifies this`pos, this`linenumber
      ensures Valid() && linenumber == old(linenumber) + 1 && Rest() == old(Rest())[NewlineLength(old(Rest()))..]
        && ok == (linenumber < MAX_INT)
    {
      var first := input[pos];
      pos := pos + 1;
      if pos < |input| && IsNewline(input[pos]) && input[pos] != first {
        pos := pos + 1;
      }
      linenumber := linenumber + 1;
      ok := linenumber < MAX_INT;
    }

    /** A number of up to three digits after a backslash. */
    method ReadDigits() returns (c: int)
      requires Valid() && pos < |input| && IsDigit(input[pos])
      modifies this`pos
      ensures Valid() && Rest() == old(Rest())[Digits(old(Rest()), 3)..]
      ensures (forall i :: 0 <= i < Digits(old(Rest()), 3) ==> IsDigit(old(Rest())[i]))
        && c == Decimal(old(Rest())[..Digits(old(Rest()), 3)])
    {
      ghost var t := Rest();
      var start := pos;
      c := 0;
      var i := 0;
      while i < 3 && pos < |input| && IsDigit(input[pos])
        invariant Valid() && 0 <= i <= 3 && pos == start + i && i <= |t| && (forall j :: 0 <= j < i ==> IsDigit(t[j]))
          && c == Decimal(t[..i])
        decreases 3 - i
      {
        assert t[i] == input[pos] && t[..i + 1][..i] == t[..i];
        c := 10 * c + (input[pos] as int - '0' as int);
        pos := pos + 1;
        i := i + 1;
      }
      DigitsMeasured(t, 3, i);
    }

    /** An escape sequence, from its backslash on. */
    method ReadEscape() returns (e: Option<Why>)
      requires Valid() && pos + 1 < |input| && input[pos] == '\\'
      modifies this`pos, this`linenumber, this`buff
      ensures Valid()
      ensures forall del :: del != '\\' ==> StepIs(old(Rest()), old(linenumber), del, old(buff), Rest(), linenumber,
        buff, e)
      ensures e.None? ==> pos > old(pos)
    {
      ghost var t, line, acc := Rest(), linenumber, buff;
      assert t[0] == '\\' && t[1] == input[pos + 1];
      pos := pos + 1;
      assert Rest() == t[1..];
      var c := input[pos];
      e := None;
      if IsNewline(c) {
        buff := buff + [LF];
        var ok := IncLineNumber();
        if !ok {
          e := Some(TooManyLines);
        }
      } else if !IsDigit(c) {
        buff := buff + [Named(c)];
        pos := pos + 1;
      } else {
        var x := ReadDigits();
        if x > 255 {
          e := Some(TooLarge);
        } else {
          buff := buff + [x as char];
        }
      }
      forall del | del != '\\' ensures StepIs(t, line, del, acc, Rest(), linenumber, buff, e) {
        EscapeIs(t, line, del, Rest());
        if e.None? {
          BeforeCons(acc, buff[|acc|], Lex(Rest(), linenumber, del));
        }
      }
    }

    /** read_string, from its opening delimiter on */
    method ReadString(del: char) returns (text: string, e: Option<Why>)
      requires Valid() && pos < |input| && input[pos] == del && (del == '"' || del == '\'')
      modifies this`pos, this`linenumber, this`buff
      ensures Valid() && if e.Some? then Lex(old(Rest())[1..], old(linenumber), del) == Fail(e.v)
                         else Lex(old(Rest())[1..], old(linenumber), del) == Got(text, Rest(), linenumber)
    {
      pos := pos + 1;
      buff := "";
      assert Rest() == old(Rest())[1..];
      ghost var all := Lex(Rest(), linenumber, del);
      text, e := "", None;
      assert Before("", all) == all by { if all.Got? { assert "" + all.text == all.text; } }
      while pos < |input| && input[pos] != del
        invariant Valid() && e.None? && all == Before(buff, Lex(Rest(), linenumber, del))
        decreases |input| - pos
      {
        ghost var t := Rest();
        if IsNewline(input[pos]) {
          return "", Some(Unfinished);
        } else if input[pos] == '\\' {
          if pos + 1 == |input| {
            return "", Some(Unfinished);
          }
          ghost var l, b := linenumber, buff;
          e := ReadEscape();
          assert StepIs(t, l, del, b, Rest(), linenumber, buff, e);
          if e.Some? {
            return;
          }
        } else {
          BeforeCons(buff, input[pos], Lex(t[1..], linenumber, del));
          buff := buff + [input[pos]];
          pos := pos + 1;
        }
      }
      if pos == |input| {
        return "", Some(Unfinished);
      }
      text := buff;
      assert text + "" == text;
      ghost var t := Rest();
      pos := pos + 1;
      assert Rest() == t[1..];
    }
  }

  /** Reading goes on as if from the start, or fails. */
  ghost predicate StepIs(t: string, line: int, del: char, acc: string, t': string, line': int, acc': string,
      e: Option<Why>) {
    if e.Some? then Lex(t, line, del) == Fail(e.v)
        else Before(acc, Lex(t, line, del)) == Before(acc', Lex(t', line', del))
  }

  /** An escape sequence taken apart. */
  lemma EscapeIs(t: string, line: int, del: char, t': string)
    requires |t| > 1 && t[0] == '\\' != del
    ensures var u := t[1..];
      if IsNewline(u[0]) then
        t' == u[NewlineLength(u)..] ==> Lex(t, line, del) == if line + 1 >= MAX_INT then Fail(TooManyLines)
          else Cons(LF, Lex(t', line + 1, del))
      else if !IsDigit(u[0]) then t' == u[1..] ==> Lex(t, line, del) == Cons(Named(u[0]), Lex(t', line, del))
      else
        var n := Digits(u, 3);
        (forall i :: 0 <= i < n ==> IsDigit(u[i])) ==> t' == u[n..] ==>
          var c := Decimal(u[..n]);
          Lex(t, line, del) == if c > 255 then Fail(TooLarge) else Cons(c as char, Lex(t', line, del))
  {
    var u := t[1..];
    if IsNewline(u[0]) {
      assert t[1 + NewlineLength(u)..] == u[NewlineLength(u)..];
    } else if IsDigit(u[0]) {
      var n := Digits(u, 3);
      DigitsAre(u, 3);
      assert t[1 + n..] == u[n..] && t[1..1 + n] == u[..n];
    } else {
      assert t[2..] == u[1..];
    }
  }

  lemma {:induction false} DigitsMeasured(t: string, n: nat, i: nat)
    requires i <= n && i <= |t| && (forall j :: 0 <= j < i ==> IsDigit(t[j])) && (i < n && i < |t| ==> !IsDigit(t[i]))
    ensures Digits(t, n) == i
    decreases n
  {
    if i > 0 {
      DigitsMeasured(t[1..], n - 1, i - 1);
    }
  }

  /** The two together: a string that has been written with %q and read again. */
  method QuoteAndRead(s: string, after: string, line: int) returns (text: string, e: Option<Why>)
    requires forall i :: 0 <= i < |s| ==> s[i] < 256 as char
    ensures (e == None && text == s) <==> Countable(s, line)
  {
    var q := AddQuoted(s);
    var ls := new LexState(q + after, line);
    QuoteRoundTrip(s, after, line);
    assert ls.Rest() == Quoted(s) + after;
    text, e := ls.ReadString('"');
  }
}
