/** How the ack driver builds argument lists (util/ack/trans.c): text that a user gave in a flag
    is escaped and goes through four scans unharmed. */
module AckEscape {
  import opened Shared

  const BSLASH := '\\'

  predicate IsBlank(c: char) { c == ' ' || c == '\t' }

  /** Every character behind a backslash. */
  function Escape(x: string): string { if x == "" then "" else [BSLASH, x[0]] + Escape(x[1..]) }

  lemma {:induction false} EscapeMore(x: string, i: nat)
    requires i < |x|
    ensures Escape(x[..i + 1]) == Escape(x[..i]) + [BSLASH, x[i]]
    decreases i
  {
    if i == 0 {
      assert x[..1][1..] == "" && x[..0] == "" && x[..1][0] == x[0];
      assert Escape(x[..1]) == [BSLASH, x[0]] + Escape("");
    } else {
      EscapeMore(x[1..], i - 1);
      assert x[..i + 1][1..] == x[1..][..i] && x[..i][1..] == x[1..][..i - 1] && x[1..][i - 1] == x[i];
      assert x[..i + 1][0] == x[0] && x[..i][0] == x[0];
    }
  }

  lemma Assoc(a: string, b: string, c: string)
    ensures a + b + c == a + (b + c)
  {
  }

  /** The character c does not occur, but behind a backslash, and no lone backslash is at the end. */
  predicate NoBare(s: string, c: char) {
    s == "" || (if s[0] == BSLASH then |s| >= 2 && NoBare(s[2..], c) else s[0] != c && NoBare(s[1..], c))
  }

  // ---------------------------------------------- the value that doassign makes

  /** What the star of a flag stands for, if the flag has one. */
  datatype Star = NoStar | Star(text: string)

  predicate EndsInBackslash(s: string) { s != "" && s[|s| - 1] == BSLASH }

  /** Whether the last character is a star that is to be replaced. A star is protected by any
      backslash before it, one that is itself escaped included. */
  predicate EndsInStar(s: string) { s != "" && s[|s| - 1] == '*' && !EndsInBackslash(s[..|s| - 1]) }

  function Stars(s: string): nat {
    if s == "" then 0 else Stars(s[..|s| - 1]) + if EndsInStar(s) then 1 else 0
  }

  /** The template with every such star replaced by the text in escaped form. */
  function Filled(s: string, star: Star): string {
    if s == "" then "" else
    Filled(s[..|s| - 1], star) + if EndsInStar(s) && star.Star? then Escape(star.text) else [s[|s| - 1]]
  }

  lemma {:induction false} StarsGrow(s: string, i: nat)
    requires i <= |s|
    ensures Stars(s[..i]) <= Stars(s)
    decreases |s|
  {
    if i < |s| {
      assert s[..|s| - 1][..i] == s[..i];
      StarsGrow(s[..|s| - 1], i);
    } else {
      assert s[..i] == s;
    }
  }

  /** The last loop of doassign. The text can be given out only once: its length has been counted
      down to -1 by then, and at a second star the loop copies on beyond the text. */
  method AssignedValue(template: string, star: Star) returns (val: Option<string>)
    ensures val == Some(Filled(template, star)) <==> star.NoStar? || Stars(template) <= 1
    ensures val.Some? ==> star.NoStar? || Stars(template) <= 1
    ensures val == Some(Meant(template, star)) <==> star.NoStar? || (Stars(template) <= 1 && PlainStars(template))
  {
    FilledIsMeant(template, star);
    var v, escaped := "", false;
    var at, length := 0, if star.Star? then |star.text| else 0;
    var i := 0;
    assert template[..0] == "";
    while i < |template|
      invariant 0 <= i <= |template| && v == Filled(template[..i], star) && escaped == EndsInBackslash(template[..i])
      invariant star.Star? ==> Given(star.text, at, length, Stars(template[..i]))
    {
      assert template[..i + 1][..i] == template[..i] && template[..i + 1][i] == template[i];
      var c := template[i];
      if c == BSLASH {
        escaped := true;
        v := v + [c];
      } else if c == '*' && star.Star? && !escaped {
        StarsGrow(template, i + 1);
        var more := GiveOut(star.text, at, length);
        if more.None? {
          return None;
        }
        v := v + more.v;
        at, length := |star.text|, -1;
      } else {
        escaped := false;
        v := v + [c];
      }
      i := i + 1;
    }
    assert template[..i] == template;
    return Some(v);
  }

  predicate Given(text: string, at: int, length: int, stars: nat) {
    if stars == 0 then at == 0 && length == |text| else stars == 1 && at == |text| && length == -1
  }

  /** while (length--): length characters from at on, each behind a backslash. */
  method GiveOut(text: string, at0: int, length0: int) returns (more: Option<string>)
    requires Given(text, at0, length0, 0) || Given(text, at0, length0, 1)
    ensures more == if length0 < 0 then None else Some(Escape(text))
  {
    var at, length, m := at0, length0, "";
    assert text[..0] == "";
    while length != 0
      invariant 0 <= at <= |text| && (length0 >= 0 ==> at + length == |text| && m == Escape(text[..at]))
      invariant length0 < 0 ==> at == |text| && length < 0
      decreases |text| - at
    {
      length := length - 1;
      if at == |text| {
        return None;
      }
      EscapeMore(text, at);
      m := m + [BSLASH, text[at]];
      at := at + 1;
    }
    assert text[..at] == text;
    return Some(m);
  }

  // ---------------------------------------------- the value that is meant

  /** How many backslashes a text ends with. */
  function Trailing(s: string): nat { if EndsInBackslash(s) then 1 + Trailing(s[..|s| - 1]) else 0 }

  /** Whether the last character is a star that is not escaped, as the scans of the driver see it:
      two backslashes are one that is itself escaped. */
  predicate EndsInFreeStar(s: string) { s != "" && s[|s| - 1] == '*' && Trailing(s[..|s| - 1]) % 2 == 0 }

  /** The template with every star that is not escaped replaced by the text in escaped form. */
  function Meant(s: string, star: Star): string {
    if s == "" then "" else
    Meant(s[..|s| - 1], star) + if EndsInFreeStar(s) && star.Star? then Escape(star.text) else [s[|s| - 1]]
  }

  /** No star comes after an even number of backslashes, except after none. */
  predicate PlainStars(s: string) {
    forall i :: 0 <= i < |s| && s[i] == '*' ==> Trailing(s[..i]) == 0 || Trailing(s[..i]) % 2 == 1
  }

  /** How many stars do. */
  function Spared(s: string): nat {
    if s == "" then 0 else Spared(s[..|s| - 1]) + if EndsInFreeStar(s) && !EndsInStar(s) then 1 else 0
  }

  lemma {:induction false} SparedNone(s: string)
    ensures Spared(s) == 0 <==> PlainStars(s)
    decreases |s|
  {
    if s != "" {
      var init := s[..|s| - 1];
      SparedNone(init);
      assert forall i :: 0 <= i < |init| ==> init[i] == s[i] && init[..i] == s[..i];
      assert s[..|init|] == init;
    }
  }

  /** Each of them makes the two values differ in length by the same amount in the same direction. */
  lemma {:induction false} SparedLengths(s: string, x: string)
    ensures x == "" ==> |Filled(s, Star(x))| == |Meant(s, Star(x))| + Spared(s)
    ensures x != "" ==> |Meant(s, Star(x))| >= |Filled(s, Star(x))| + Spared(s)
    ensures Spared(s) == 0 ==> Filled(s, Star(x)) == Meant(s, Star(x))
    decreases |s|
  {
    EscapeLength(x);
    if s != "" {
      SparedLengths(s[..|s| - 1], x);
      assert EndsInStar(s) ==> EndsInFreeStar(s);
    }
  }

  lemma {:induction false} NoStarIsMeant(s: string)
    ensures Filled(s, NoStar) == Meant(s, NoStar)
    decreases |s|
  {
    if s != "" {
      NoStarIsMeant(s[..|s| - 1]);
    }
  }

  /** doassign takes a star for escaped after any backslash. Its value is the one that is meant,
      whatever the text, exactly when no star comes after an escaped backslash. */
  lemma FilledIsMeant(s: string, star: Star)
    ensures Filled(s, star) == Meant(s, star) <==> star.NoStar? || PlainStars(s)
  {
    SparedNone(s);
    if star.NoStar? {
      NoStarIsMeant(s);
    } else {
      SparedLengths(s, star.text);
    }
  }

  /** Two stars are too many ... */
  lemma TwoStars()
    ensures Stars("**") == 2
  {
    assert "**"[..1] == "*" && "*"[..0] == "" && Stars("*") == 1;
  }

  lemma TwoBackslashes(star: Star)
    ensures var b := "\\\\"; Trailing(b) == 2 && Filled(b, star) == b && Meant(b, star) == b
  {
    var b := "\\\\";
    assert b[..1] == "\\" && "\\"[..0] == "";
    assert Trailing("\\") == 1 && Filled("\\", star) == "\\" && Meant("\\", star) == "\\";
  }

  /** ... and a star after two backslashes is left alone. */
  lemma SparedStar(x: string)
    ensures var a, b := "\\\\*", "\\\\";
      !PlainStars(a) && Filled(a, Star(x)) == a != Meant(a, Star(x)) == b + Escape(x)
  {
    var a, b := "\\\\*", "\\\\";
    TwoBackslashes(Star(x));
    assert a[..2] == b && a[2] == '*' && EndsInBackslash(b);
    hide Trailing, Escape;
    FilledIsMeant(a, Star(x));
  }

  /** The place of the last star. */
  function StarAt(s: string): (i: nat)
    requires Stars(s) > 0
    ensures i < |s| && s[i] == '*'
  {
    if EndsInStar(s) then |s| - 1 else StarAt(s[..|s| - 1])
  }

  /** The text in its place in a template with one star. */
  lemma {:induction false} OneStar(s: string, x: string) returns (post: string)
    requires Stars(s) == 1
    ensures Filled(s, Star(x)) == s[..StarAt(s)] + Escape(x) + post
    decreases |s|
  {
    var init := s[..|s| - 1];
    if EndsInStar(s) {
      NoStars(init, x);
      post := "";
    } else {
      post := OneStar(init, x);
      assert init[..StarAt(init)] == s[..StarAt(s)];
      post := post + [s[|s| - 1]];
    }
  }

  lemma {:induction false} NoStars(s: string, x: string)
    requires Stars(s) == 0
    ensures Filled(s, Star(x)) == s
    decreases |s|
  {
    if s != "" {
      NoStars(s[..|s| - 1], x);
    }
  }

  // ----------------------------------------------------------------- scanvars

  datatype SvMode = Text | First | Name | Skip | Copy | Fatal

  datatype Sv = Sv(mode: SvMode, escaped: bool, result: string, name: string)

  /** A character of the line; escaped ones have no special meaning. */
  function SvStep(vars: map<string, string>, st: Sv, c: char): Sv {
    if st.mode == Fatal then st
    else if c == BSLASH && !st.escaped then
      st.(escaped := true, result := if st.mode == Text || st.mode == Copy then st.result + [c] else st.result)
    else
      var special := !st.escaped;
      var st1 := st.(escaped := false);
      match st.mode
      case Text => if special && c == '{' then st1.(mode := First) else st1.(result := st.result + [c])
      case First => if special && (c == '?' || c == '}') then st1.(mode := Fatal)
        else st1.(mode := Name, name := st.name + [c])
      case Name =>
        if special && c == '?' then
          (if st.name in vars then st1.(mode := Skip, result := st.result + vars[st.name], name := "")
            else st1.(mode := Copy, name := ""))
        else if special && c == '}' then
          (if st.name in vars then st1.(mode := Text, result := st.result + vars[st.name], name := "")
            else st1.(mode := Text, name := ""))
        else st1.(name := st.name + [c])
      case Skip => if special && c == '}' then st1.(mode := Text) else st1
      case Copy => if special && c == '}' then st1.(mode := Text) else st1.(result := st.result + [c])
      case Fatal => st
  }

  function SvRun(vars: map<string, string>, st: Sv, s: string): Sv {
    if s == "" then st else SvStep(vars, SvRun(vars, st, s[..|s| - 1]), s[|s| - 1])
  }

  const SV_START := Sv(Text, false, "", "")

  method ScanVars(vars: map<string, string>, line: string) returns (result: string, fatal: bool)
    ensures result == SvRun(vars, SV_START, line).result && fatal == (SvRun(vars, SV_START, line).mode == Fatal)
    ensures NoBare(line, '{') ==> result == line && !fatal
  {
    var st := SV_START;
    var i := 0;
    assert line[..0] == "";
    while i < |line|
      invariant 0 <= i <= |line| && st == SvRun(vars, SV_START, line[..i])
    {
      assert line[..i + 1][..i] == line[..i] && line[..i + 1][i] == line[i];
      st := SvStep(vars, st, line[i]);
      i := i + 1;
    }
    assert line[..i] == line;
    if NoBare(line, '{') {
      SvUnchanged(vars, SV_START, line);
    }
    return st.result, st.mode == Fatal;
  }

  lemma {:induction false} SvConcat(vars: map<string, string>, st: Sv, s: string, t: string)
    ensures SvRun(vars, st, s + t) == SvRun(vars, SvRun(vars, st, s), t)
    decreases |t|
  {
    if t == "" {
      assert s + t == s;
    } else {
      assert (s + t)[..|s + t| - 1] == s + t[..|t| - 1];
      SvConcat(vars, st, s, t[..|t| - 1]);
    }
  }

  /** Text without a reference to a variable comes out unchanged, with its backslashes. */
  lemma {:induction false} SvUnchanged(vars: map<string, string>, st: Sv, s: string)
    requires st.mode == Text && !st.escaped && NoBare(s, '{')
    ensures SvRun(vars, st, s) == st.(result := st.result + s)
    decreases |s|
  {
    if s == "" {
      assert st.result + s == st.result;
    } else {
      var n := if s[0] == BSLASH then 2 else 1;
      var one, rest := s[..n], s[n..];
      assert s == one + rest;
      SvCopies(vars, st, one);
      hide SvRun;
      SvConcat(vars, st, one, rest);
      SvUnchanged(vars, st.(result := st.result + one), rest);
      Assoc(st.result, one, rest);
    }
  }

  lemma SvCopies(vars: map<string, string>, st: Sv, one: string)
    requires st.mode == Text && !st.escaped
    requires if |one| == 1 then one[0] != BSLASH && one[0] != '{' else |one| == 2 && one[0] == BSLASH
    ensures SvRun(vars, st, one) == st.(result := st.result + one)
  {
    SvOne(vars, st, one[0]);
    if |one| == 1 {
      assert one == [one[0]];
    } else {
      assert one == [one[0]] + [one[1]];
      SvConcat(vars, st, [one[0]], [one[1]]);
      SvOne(vars, SvStep(vars, st, one[0]), one[1]);
      assert st.result + [one[0]] + [one[1]] == st.result + one;
    }
  }

  /** A name that can be looked up. */
  predicate IsName(name: string) { name != "" && forall i :: 0 <= i < |name| ==> name[i] !in "?}\\" }

  lemma {:induction false} SvName(vars: map<string, string>, st: Sv, name: string)
    requires st.mode == First && !st.escaped && st.name == "" && IsName(name)
    ensures SvRun(vars, st, name) == st.(mode := Name, name := name)
    decreases |name|
  {
    var init, c := name[..|name| - 1], name[|name| - 1];
    assert name == init + [c];
    if init == "" {
      assert SvRun(vars, st, init) == st;
    } else {
      SvName(vars, st, init);
    }
  }

  /** A reference to a variable is replaced by its value, just as it is. */
  lemma SvReplaces(vars: map<string, string>, st: Sv, name: string)
    requires st.mode == Text && !st.escaped && st.name == "" && IsName(name) && name in vars
    ensures SvRun(vars, st, "{" + name + "}") == st.(result := st.result + vars[name])
  {
    var st1 := st.(mode := First);
    assert "{"[..0] == "";
    assert SvRun(vars, st, "{") == st1;
    SvConcat(vars, st, "{", name);
    SvName(vars, st1, name);
    SvConcat(vars, st, "{" + name, "}");
    assert "}"[..0] == "";
    var st2 := SvRun(vars, st, "{" + name);
    assert SvRun(vars, st2, "}") == SvStep(vars, SvRun(vars, st2, ""), '}');
  }

  /** A reference without a name is fatal, and one to a variable that is not set gives nothing. */
  lemma SvNothing(vars: map<string, string>, st: Sv, name: string)
    requires st.mode == Text && !st.escaped && st.name == "" && IsName(name) && name !in vars
    ensures SvRun(vars, st, "{" + name + "}") == st
    ensures SvRun(vars, st, "{}").mode == Fatal && SvRun(vars, st, "{?").mode == Fatal
  {
    SvOne(vars, st, '{');
    var st1 := st.(mode := First);
    SvConcat(vars, st, "{", name);
    SvName(vars, st1, name);
    SvConcat(vars, st, "{" + name, "}");
    SvOne(vars, SvRun(vars, st, "{" + name), '}');
    forall c | c == '}' || c == '?' ensures SvRun(vars, st, "{" + [c]).mode == Fatal {
      SvConcat(vars, st, "{", [c]);
      SvOne(vars, st1, c);
    }
    assert "{" + ['}'] == "{}" && "{" + ['?'] == "{?";
  }

  /** Text with no meaning of its own between some character and its end. */
  predicate IsPlain(s: string, stops: string) { forall i :: 0 <= i < |s| ==> s[i] != BSLASH && s[i] !in stops }

  lemma {:induction false} SvPlain(vars: map<string, string>, st: Sv, text: string)
    requires (st.mode == Skip || st.mode == Copy) && !st.escaped && IsPlain(text, "}")
    ensures SvRun(vars, st, text) == if st.mode == Copy then st.(result := st.result + text) else st
    decreases |text|
  {
    if text == "" {
      assert st.result + text == st.result;
    } else {
      SvPlain(vars, st, text[..|text| - 1]);
      assert text == text[..|text| - 1] + [text[|text| - 1]];
      Assoc(st.result, text[..|text| - 1], [text[|text| - 1]]);
    }
  }

  lemma SvOne(vars: map<string, string>, st: Sv, c: char)
    ensures SvRun(vars, st, [c]) == SvStep(vars, st, c)
  {
    assert [c][..0] == "";
    assert SvRun(vars, st, [c]) == SvStep(vars, SvRun(vars, st, ""), c);
  }

  /** A reference with a text to use instead gives the value if there is one and the text if not. */
  lemma SvChooses(vars: map<string, string>, st: Sv, name: string, text: string)
    requires st.mode == Text && !st.escaped && st.name == "" && IsName(name) && IsPlain(text, "}")
    ensures SvRun(vars, st, "{" + name + "?" + text + "}") == st.(result := st.result + if name in vars then vars[name]
      else text)
  {
    hide SvRun, IsName, IsPlain;
    SvOne(vars, st, '{');
    SvConcat(vars, st, "{", name);
    var st1 := st.(mode := First);
    SvName(vars, st1, name);
    var st2 := st.(mode := Name, name := name);
    SvConcat(vars, st, "{" + name, "?");
    SvOne(vars, st2, '?');
    var st3 := SvStep(vars, st2, '?');
    SvConcat(vars, st, "{" + name + "?", text);
    SvPlain(vars, st3, text);
    SvConcat(vars, st, "{" + name + "?" + text, "}");
    SvOne(vars, SvRun(vars, st3, text), '}');
  }

  /** What is in the result stays there. */
  lemma {:induction false} SvAppends(vars: map<string, string>, st: Sv, s: string)
    ensures st.result <= SvRun(vars, st, s).result
    decreases |s|
  {
    if s != "" {
      SvAppends(vars, st, s[..|s| - 1]);
    }
  }

  // ----------------------------------------------------------------- doassign

  /** The first place from i on with one of some characters, or the end. */
  function Until(s: string, i: nat, stops: string): (r: nat)
    requires i <= |s|
    ensures i <= r <= |s| && (forall k :: i <= k < r ==> s[k] !in stops) && (r < |s| ==> s[r] in stops)
    decreases |s| - i
  {
    if i == |s| || s[i] in stops then i else Until(s, i + 1, stops)
  }

  method Search(s: string, i: nat, stops: string) returns (r: nat)
    requires i <= |s|
    ensures r == Until(s, i, stops)
  {
    r := i;
    while r < |s| && s[r] !in stops
      invariant i <= r <= |s| && Until(s, i, stops) == Until(s, r, stops)
    {
      r := r + 1;
    }
  }

  /** The variables after an assignment, or what stopped it. */
  datatype Assigned = Assigned(vars: map<string, string>) | NoEqual | NoName | Overrun

  method DoAssign(vars: map<string, string>, line: string, star: Star) returns (r: Assigned)
    ensures r == NoEqual <==> '=' !in line
    ensures r != NoEqual ==>
      var n := Until(line, 0, " \t=");
      var t := SvRun(vars, SV_START, line[Until(line, n, "=") + 1..]);
      && (r == NoName <==> t.mode == Fatal)
      && (r == Overrun <==> t.mode != Fatal && star.Star? && Stars(t.result) > 1)
      && (r.Assigned? ==> r.vars == vars[line[..n] := Filled(t.result, star)])
  {
    hide SvRun, Stars, Filled, Until;
    var n := Search(line, 0, " \t=");
    var e := Search(line, n, "=");
    if e == |line| {
      return NoEqual;
    }
    var temp, fatal := ScanVars(vars, line[e + 1..]);
    if fatal {
      return NoName;
    }
    var val := AssignedValue(temp, star);
    if val.None? {
      return Overrun;
    }
    return Assigned(vars[line[..n] := val.v]);
  }

  // ----------------------------------------------------------------- scanexpr

  datatype SeMode = EText | FDot | FSuf | LDot | LSuf | FTail

  datatype Se = Se(mode: SeMode, escaped: bool, result: string, sufs: string, fsuff: seq<string>, lsuff: seq<string>,
    tail: string)

  /** condit: the tail is wanted when some suffix is in both lists. */
  predicate Common(a: seq<string>, b: seq<string>) { exists x :: x in a && x in b }

  function SeStep(st: Se, c: char): Se {
    if c == BSLASH && !st.escaped then
      st.(escaped := true, result := if st.mode == EText || st.mode == FTail then st.result + [c] else st.result)
    else
      var special := !st.escaped;
      var st1 := st.(escaped := false);
      match st.mode
      case EText => if special && c == '(' then st1.(mode := FDot) else st1.(result := st.result + [c])
      case FDot => if special && c == ':' then st1.(mode := LDot) else st1.(mode := FSuf, sufs := st.sufs + [c])
      case FSuf =>
        if special && c == ':' then st1.(mode := LDot, fsuff := st.fsuff + [st.sufs], sufs := "")
        else if c == '.' then st1.(fsuff := st.fsuff + [st.sufs], sufs := [c])
        else st1.(sufs := st.sufs + [c])
      case LDot => if special && c == '=' then st1.(mode := FTail) else st1.(mode := LSuf, sufs := st.sufs + [c])
      case LSuf =>
        if special && c == '=' then st1.(mode := FTail, lsuff := st.lsuff + [st.sufs], sufs := "")
        else if c == '.' then st1.(lsuff := st.lsuff + [st.sufs], sufs := [c])
        else st1.(sufs := st.sufs + [c])
      case FTail =>
        if special && c == ')' then
          st1.(mode := EText, result := if Common(st.fsuff, st.lsuff) then st.result + st.tail
            else st.result, fsuff := [], lsuff := [], tail := "")
        else st1.(tail := st.tail + [c])
  }

  function SeRun(st: Se, s: string): Se { if s == "" then st else SeStep(SeRun(st, s[..|s| - 1]), s[|s| - 1]) }

  const SE_START := Se(EText, false, "", "", [], [], "")

  method ScanExpr(line: string) returns (result: string)
    ensures result == SeRun(SE_START, line).result
    ensures NoBare(line, '(') ==> result == line
  {
    var st := SE_START;
    var i := 0;
    assert line[..0] == "";
    while i < |line|
      invariant 0 <= i <= |line| && st == SeRun(SE_START, line[..i])
    {
      assert line[..i + 1][..i] == line[..i] && line[..i + 1][i] == line[i];
      st := SeStep(st, line[i]);
      i := i + 1;
    }
    assert line[..i] == line;
    if NoBare(line, '(') {
      SeUnchanged(SE_START, line);
    }
    return st.result;
  }

  lemma {:induction false} SeConcat(st: Se, s: string, t: string)
    ensures SeRun(st, s + t) == SeRun(SeRun(st, s), t)
    decreases |t|
  {
    if t == "" {
      assert s + t == s;
    } else {
      assert (s + t)[..|s + t| - 1] == s + t[..|t| - 1];
      SeConcat(st, s, t[..|t| - 1]);
    }
  }

  /** Outside a conditional, escaped text is copied with its backslashes. */
  lemma {:induction false} SeEscaped(st: Se, x: string)
    requires st.mode == EText && !st.escaped
    ensures SeRun(st, Escape(x)) == st.(result := st.result + Escape(x))
    decreases |x|
  {
    if x == "" {
      assert st.result + "" == st.result;
    } else {
      var two, rest := [BSLASH, x[0]], Escape(x[1..]);
      assert Escape(x) == two + rest;
      hide SeRun, SeStep, Escape;
      SeTwo(st, x[0]);
      SeConcat(st, two, rest);
      SeEscaped(st.(result := st.result + two), x[1..]);
      Assoc(st.result, two, rest);
    }
  }

  lemma SeTwo(st: Se, c: char)
    requires st.mode == EText && !st.escaped
    ensures SeRun(st, [BSLASH, c]) == st.(result := st.result + [BSLASH, c])
  {
    var two := [BSLASH, c];
    assert two[..1] == [BSLASH] && [BSLASH][..0] == "";
    assert SeRun(st, [BSLASH]) == SeStep(SeRun(st, ""), BSLASH);
    assert SeRun(st, two) == SeStep(SeRun(st, [BSLASH]), c);
    assert st.result + [BSLASH] + [c] == st.result + two;
  }

  /** Text without a conditional comes out unchanged, with its backslashes. */
  lemma {:induction false} SeUnchanged(st: Se, s: string)
    requires st.mode == EText && !st.escaped && NoBare(s, '(')
    ensures SeRun(st, s) == st.(result := st.result + s)
    decreases |s|
  {
    if s == "" {
      assert st.result + s == st.result;
    } else {
      var n := if s[0] == BSLASH then 2 else 1;
      var one, rest := s[..n], s[n..];
      assert s == one + rest;
      SeCopies(st, one);
      hide SeRun;
      SeConcat(st, one, rest);
      SeUnchanged(st.(result := st.result + one), rest);
      Assoc(st.result, one, rest);
    }
  }

  lemma SeCopies(st: Se, one: string)
    requires st.mode == EText && !st.escaped
    requires if |one| == 1 then one[0] != BSLASH && one[0] != '(' else |one| == 2 && one[0] == BSLASH
    ensures SeRun(st, one) == st.(result := st.result + one)
  {
    SeOne(st, one[0]);
    if |one| == 1 {
      assert one == [one[0]];
    } else {
      assert one == [one[0], one[1]];
      SeTwo(st, one[1]);
    }
  }

  lemma {:induction false} SeAppends(st: Se, s: string)
    ensures st.result <= SeRun(st, s).result
    decreases |s|
  {
    if s != "" {
      SeAppends(st, s[..|s| - 1]);
    }
  }

  // What a conditional does

  predicate IsSuffix(s: string) { s != "" && s[0] == '.' && forall i :: 0 < i < |s| ==> s[i] !in "\\:=." }

  predicate AreSuffixes(l: seq<string>) { forall i :: 0 <= i < |l| ==> IsSuffix(l[i]) }

  function Strung(l: seq<string>): string { if l == [] then "" else Strung(l[..|l| - 1]) + l[|l| - 1] }

  lemma SeOne(st: Se, c: char)
    ensures SeRun(st, [c]) == SeStep(st, c)
  {
    assert [c][..0] == "";
    assert SeRun(st, [c]) == SeStep(SeRun(st, ""), c);
  }

  predicate AtSuffix(st: Se, first: bool) { !st.escaped && (if first then st.mode == FSuf else st.mode == LSuf) }

  /** The rest of a suffix after its dot. */
  lemma {:induction false} SeSuffixRest(st: Se, s: string, first: bool)
    requires AtSuffix(st, first) && forall i :: 0 <= i < |s| ==> s[i] !in "\\:=."
    ensures SeRun(st, s) == st.(sufs := st.sufs + s)
    decreases |s|
  {
    if s == "" {
      assert st.sufs + s == st.sufs;
    } else {
      var init, c := s[..|s| - 1], s[|s| - 1];
      SeSuffixRest(st, init, first);
      assert s == init + [c];
      Assoc(st.sufs, init, [c]);
    }
  }

  /** A list of suffixes is read: all but the last are in the list, and that is under way. */
  lemma {:induction false} SeSuffixes(st: Se, l: seq<string>, first: bool)
    requires !st.escaped && st.sufs == "" && (if first then st.mode == FDot && st.fsuff == []
      else st.mode == LDot && st.lsuff == [])
    requires AreSuffixes(l) && l != []
    ensures SeRun(st, Strung(l)) == if first then st.(mode := FSuf, sufs := l[|l| - 1], fsuff := l[..|l| - 1])
                                    else st.(mode := LSuf, sufs := l[|l| - 1], lsuff := l[..|l| - 1])
    decreases |l|
  {
    hide SeRun, SeStep, IsSuffix, Strung;
    var init, s := l[..|l| - 1], l[|l| - 1];
    assert IsSuffix(s) && AreSuffixes(init);
    StrungLast(l);
    if init == [] {
      SeNextSuffix(st, [], s, first);
    } else {
      SeSuffixes(st, init, first);
      SeConcat(st, Strung(init), s);
      assert init == init[..|init| - 1] + [init[|init| - 1]];
      SeNextSuffix(SeRun(st, Strung(init)), init, s, first);
    }
  }

  lemma StrungLast(l: seq<string>)
    requires l != []
    ensures Strung(l) == Strung(l[..|l| - 1]) + l[|l| - 1] && (|l| == 1 ==> Strung(l) == l[0])
  {
    if |l| == 1 {
      assert l[..0] == [] && "" + l[0] == l[0];
    }
  }

  lemma SeNextSuffix(st: Se, done: seq<string>, s: string, first: bool)
    requires IsSuffix(s) && !st.escaped
    requires if done == [] then st.sufs == ""
      && (if first then st.mode == FDot && st.fsuff == [] else st.mode == LDot && st.lsuff == [])
      else AtSuffix(st, first) && (if first then st.fsuff else st.lsuff) + [st.sufs] == done
    ensures SeRun(st, s) ==
      if first then st.(mode := FSuf, sufs := s, fsuff := done) else st.(mode := LSuf, sufs := s, lsuff := done)
  {
    assert s == "." + s[1..];
    var st1 := SeStep(st, '.');
    assert "" + ['.'] == ".";
    SeOne(st, '.');
    SeConcat(st, ".", s[1..]);
    hide SeRun;
    SeSuffixRest(st1, s[1..], first);
  }

  lemma {:induction false} SePlainTail(st: Se, t: string)
    requires st.mode == FTail && !st.escaped && IsPlain(t, ")")
    ensures SeRun(st, t) == st.(tail := st.tail + t)
    decreases |t|
  {
    if t == "" {
      assert st.tail + t == st.tail;
    } else {
      var init, c := t[..|t| - 1], t[|t| - 1];
      SePlainTail(st, init);
      assert t == init + [c];
      Assoc(st.tail, init, [c]);
    }
  }

  /** From a list of suffixes to what follows it. */
  lemma SeList(st: Se, l: seq<string>, first: bool)
    requires !st.escaped && st.sufs == "" && (if first then st.mode == FDot && st.fsuff == []
      else st.mode == LDot && st.lsuff == [])
    requires AreSuffixes(l)
    ensures SeRun(st, Strung(l) + (if first then ":" else "=")) ==
      if first then st.(mode := LDot, fsuff := l) else st.(mode := FTail, lsuff := l)
  {
    var c := if first then ':' else '=';
    hide SeRun, IsSuffix;
    if l == [] {
      SeOne(st, c);
      assert "" + [c] == [c];
    } else {
      SeSuffixes(st, l, first);
      assert l == l[..|l| - 1] + [l[|l| - 1]];
      SeConcat(st, Strung(l), [c]);
      SeOne(SeRun(st, Strung(l)), c);
    }
  }

  /** A conditional gives its tail if its lists have a suffix in common, and nothing if not. */
  lemma SeChooses(st: Se, fs: seq<string>, ls: seq<string>, t: string)
    requires st.mode == EText && !st.escaped && st.sufs == "" && st.fsuff == [] && st.lsuff == [] && st.tail == ""
    requires AreSuffixes(fs) && AreSuffixes(ls) && IsPlain(t, ")")
    ensures SeRun(st, "(" + (Strung(fs) + ":") + (Strung(ls) + "=") + t + ")") ==
      if exists x :: x in fs && x in ls then st.(result := st.result + t) else st
  {
    hide SeRun, Strung, AreSuffixes, IsPlain;
    var a, b := Strung(fs) + ":", Strung(ls) + "=";
    SeOne(st, '(');
    SeConcat(st, "(", a);
    SeList(st.(mode := FDot), fs, true);
    SeConcat(st, "(" + a, b);
    SeList(st.(mode := LDot, fsuff := fs), ls, false);
    var st3 := st.(mode := FTail, fsuff := fs, lsuff := ls);
    SeConcat(st, "(" + a + b, t);
    SePlainTail(st3, t);
    assert "" + t == t;
    SeConcat(st, "(" + a + b + t, ")");
    SeOne(st3.(tail := t), ')');
  }

  function Backslashes(n: nat): string { seq(n, _ => BSLASH) }

  function Tailed(st: Se, r: string, t: string): Se { st.(result := st.result + r, tail := st.tail + t) }

  /** Within the tail of a conditional the backslashes go to the result, ahead of the tail. */
  lemma {:induction false} SeTail(st: Se, x: string)
    requires st.mode == FTail && !st.escaped
    ensures SeRun(st, Escape(x)) == Tailed(st, Backslashes(|x|), x)
    decreases |x|
  {
    hide SeRun, SeStep, Escape, Tailed, Backslashes;
    if x == "" {
      SeTailNothing(st);
    } else {
      var two, rest := [BSLASH, x[0]], Escape(x[1..]);
      EscapeFirst(x);
      SeTailTwo(st, x[0]);
      SeConcat(st, two, rest);
      SeTail(Tailed(st, [BSLASH], [x[0]]), x[1..]);
      TailedTwice(st, x);
    }
  }

  lemma SeTailNothing(st: Se)
    ensures SeRun(st, Escape("")) == Tailed(st, Backslashes(0), "")
  {
    assert st.result + Backslashes(0) == st.result && st.tail + "" == st.tail;
  }

  lemma EscapeFirst(x: string)
    requires x != ""
    ensures Escape(x) == [BSLASH, x[0]] + Escape(x[1..])
  {
  }

  lemma TailedTwice(st: Se, x: string)
    requires x != ""
    ensures Tailed(Tailed(st, [BSLASH], [x[0]]), Backslashes(|x| - 1), x[1..]) == Tailed(st, Backslashes(|x|), x)
  {
    assert [BSLASH] + Backslashes(|x| - 1) == Backslashes(|x|) && [x[0]] + x[1..] == x;
    Assoc(st.result, [BSLASH], Backslashes(|x| - 1));
    Assoc(st.tail, [x[0]], x[1..]);
  }

  /** So text in the tail of a conditional is still in escaped form after it exactly when all its
      characters but the last are backslashes. */
  lemma TailKeepsEscape(st: Se, x: string)
    requires st.mode == FTail && !st.escaped && st.tail == "" && Common(st.fsuff, st.lsuff)
    ensures SeRun(st, Escape(x) + ")").result == st.result + Escape(x) <==> AllButLast(x)
  {
    hide SeRun, SeStep, Escape, AllButLast, Common;
    SeTail(st, x);
    var st1 := st.(result := st.result + Backslashes(|x|), tail := x);
    assert st.tail + x == x;
    SeConcat(st, Escape(x), ")");
    SeTailEnds(st1);
    Assoc(st.result, Backslashes(|x|), x);
    assert (st.result + (Backslashes(|x|) + x))[|st.result|..] == Backslashes(|x|) + x;
    assert (st.result + Escape(x))[|st.result|..] == Escape(x);
    EscapeMoved(x);
  }

  lemma SeTailTwo(st: Se, c: char)
    requires st.mode == FTail && !st.escaped
    ensures SeRun(st, [BSLASH, c]) == Tailed(st, [BSLASH], [c]) && Tailed(st, [BSLASH], [c]).mode == FTail
      && !Tailed(st, [BSLASH], [c]).escaped
  {
    var two := [BSLASH, c];
    assert two[..1] == [BSLASH] && [BSLASH][..0] == "";
    assert SeRun(st, [BSLASH]) == SeStep(SeRun(st, ""), BSLASH);
    assert SeRun(st, two) == SeStep(SeRun(st, [BSLASH]), c);
  }

  predicate AllButLast(x: string) { forall i :: 0 <= i < |x| - 1 ==> x[i] == BSLASH }

  /** Two characters are parted from their backslashes. */
  lemma TailExample()
    ensures Escape("ab") == "\\a\\b" && Backslashes(2) + "ab" == "\\\\ab" && !AllButLast("ab")
  {
    assert "ab"[1..] == "b" && "b"[1..] == "";
    assert Escape("b") == "\\b";
    assert "ab"[0] != BSLASH;
  }

  lemma SeTailEnds(st: Se)
    requires st.mode == FTail && !st.escaped && Common(st.fsuff, st.lsuff)
    ensures SeRun(st, ")").result == st.result + st.tail
  {
    hide Common;
    assert ")"[..0] == "";
    assert SeRun(st, ")") == SeStep(SeRun(st, ""), ')');
  }

  /** Moving the backslashes to the front changes nothing only if there is nothing else there. */
  lemma EscapeMoved(x: string)
    ensures Backslashes(|x|) + x == Escape(x) <==> AllButLast(x)
  {
    hide Escape;
    if Escape(x) == Backslashes(|x|) + x {
      forall i | 0 <= i < |x| - 1 ensures x[i] == BSLASH {
        MostlyBackslashes(x, i);
      }
    }
    if AllButLast(x) {
      EscapeLength(x);
      forall k | 0 <= k < 2 * |x| ensures Escape(x)[k] == (Backslashes(|x|) + x)[k] {
        MovedAt(x, k);
      }
    }
  }

  lemma MovedAt(x: string, k: nat)
    requires AllButLast(x) && k < 2 * |x| == |Escape(x)|
    ensures Escape(x)[k] == (Backslashes(|x|) + x)[k]
  {
    hide Escape;
    EscapeAt(x, k / 2);
    assert k == 2 * (k / 2) || k == 2 * (k / 2) + 1;
  }

  lemma {:induction false} EscapeLength(x: string)
    ensures |Escape(x)| == 2 * |x|
    decreases |x|
  {
    if x != "" {
      EscapeLength(x[1..]);
    }
  }

  lemma {:induction false} EscapeAt(x: string, i: nat)
    requires i < |x|
    ensures |Escape(x)| == 2 * |x| && Escape(x)[2 * i] == BSLASH && Escape(x)[2 * i + 1] == x[i]
    decreases |x|
  {
    EscapeLength(x);
    if i > 0 {
      EscapeAt(x[1..], i - 1);
    }
  }

  lemma {:induction false} MostlyBackslashes(x: string, i: nat)
    requires Escape(x) == Backslashes(|x|) + x && i < |x| - 1
    ensures x[i] == BSLASH
    decreases i
  {
    EscapeAt(x, i);
    var k := 2 * i + 1;
    if k >= |x| {
      MostlyBackslashes(x, k - |x|);
    }
  }

  // ------------------------------------------------------------------ unravel

  datatype UrMode = Blank | Arg | Escaped

  datatype Ur = Ur(mode: UrMode, argum: string, args: seq<string>)

  function UrStep(st: Ur, c: char): Ur {
    match st.mode
    case Blank => if IsBlank(c) then st else st.(mode := if c == BSLASH then Escaped else Arg, argum := [c])
    case Arg => if IsBlank(c) then Ur(Blank, "", st.args + [st.argum])
      else st.(mode := if c == BSLASH then Escaped else Arg, argum := st.argum + [c])
    case Escaped => st.(mode := Arg, argum := st.argum + [c])
  }

  function UrRun(st: Ur, s: string): Ur { if s == "" then st else UrStep(UrRun(st, s[..|s| - 1]), s[|s| - 1]) }

  const UR_START := Ur(Blank, "", [])

  /** The end of the line ends the last argument, unless it comes right after a backslash. */
  function UrEnd(st: Ur): seq<string> { if st.mode == Arg then st.args + [st.argum] else st.args }

  method Unravel(line: string) returns (args: seq<string>)
    ensures args == UrEnd(UrRun(UR_START, line))
  {
    var st := UR_START;
    var i := 0;
    assert line[..0] == "";
    while i < |line|
      invariant 0 <= i <= |line| && st == UrRun(UR_START, line[..i])
    {
      assert line[..i + 1][..i] == line[..i] && line[..i + 1][i] == line[i];
      st := UrStep(st, line[i]);
      i := i + 1;
    }
    assert line[..i] == line;
    return UrEnd(st);
  }

  lemma {:induction false} UrConcat(st: Ur, s: string, t: string)
    ensures UrRun(st, s + t) == UrRun(UrRun(st, s), t)
    decreases |t|
  {
    if t == "" {
      assert s + t == s;
    } else {
      assert (s + t)[..|s + t| - 1] == s + t[..|t| - 1];
      UrConcat(st, s, t[..|t| - 1]);
    }
  }

  /** The argument under way when escaped text comes. */
  function Begun(st: Ur): string { if st.mode == Blank then "" else st.argum }

  /** A piece of an argument: no blank in it is bare, and no backslash stands at the end. */
  predicate IsToken(a: string) {
    a == "" || (if a[0] == BSLASH then |a| >= 2 && IsToken(a[2..]) else !IsBlank(a[0]) && IsToken(a[1..]))
  }

  /** A token becomes part of one argument. */
  lemma {:induction false} UrToken(st: Ur, a: string)
    requires st.mode != Escaped && IsToken(a) && a != ""
    ensures UrRun(st, a) == Ur(Arg, Begun(st) + a, st.args)
    decreases |a|
  {
    var n := if a[0] == BSLASH then 2 else 1;
    var one, rest := a[..n], a[n..];
    assert a == one + rest;
    UrOne(st, one);
    hide UrRun, UrStep, IsToken, Begun;
    UrConcat(st, one, rest);
    var st1 := Ur(Arg, Begun(st) + one, st.args);
    if rest == "" {
      UrNothing(st1);
      assert one == a;
    } else {
      TokenRest(a);
      UrToken(st1, rest);
      BegunIs(st1);
      Assoc(Begun(st), one, rest);
    }
  }

  lemma UrNothing(st: Ur)
    ensures UrRun(st, "") == st
  {
  }

  lemma TokenRest(a: string)
    requires IsToken(a) && a != ""
    ensures a[0] == BSLASH ==> |a| >= 2 && IsToken(a[2..])
    ensures a[0] != BSLASH ==> IsToken(a[1..])
  {
  }

  lemma BegunIs(st: Ur)
    ensures st.mode == Arg ==> Begun(st) == st.argum
  {
  }

  lemma UrOne(st: Ur, one: string)
    requires st.mode != Escaped && (if |one| == 1 then !IsBlank(one[0]) && one[0] != BSLASH
      else |one| == 2 && one[0] == BSLASH)
    ensures UrRun(st, one) == Ur(Arg, Begun(st) + one, st.args)
  {
    assert one[..1][..0] == "";
    assert UrRun(st, one[..1]) == UrStep(UrRun(st, ""), one[0]);
    if |one| == 1 {
      assert one[..1] == one && [one[0]] == one;
    } else {
      assert UrRun(st, one) == UrStep(UrRun(st, one[..1]), one[1]);
      assert one == [one[0]] + [one[1]];
    }
  }

  lemma {:induction false} EscapeIsToken(x: string)
    ensures IsToken(Escape(x))
    decreases |x|
  {
    if x != "" {
      EscapeIsToken(x[1..]);
      assert Escape(x)[2..] == Escape(x[1..]);
    }
  }

  /** Escaped text becomes part of one argument. */
  lemma UrEscaped(st: Ur, x: string)
    requires st.mode != Escaped && x != ""
    ensures UrRun(st, Escape(x)) == Ur(Arg, Begun(st) + Escape(x), st.args)
  {
    EscapeIsToken(x);
    UrToken(st, Escape(x));
  }

  function Joined(args: seq<string>): string { if args == [] then "" else args[0] + " " + Joined(args[1..]) }

  predicate IsArgument(a: string) { a != "" && IsToken(a) }

  /** unravel takes apart what blanks hold apart: any list of arguments comes back from the line
      they make, and every line gives such a list. */
  lemma UnravelJoined(args: seq<string>)
    requires forall i :: 0 <= i < |args| ==> IsArgument(args[i])
    ensures UrEnd(UrRun(UR_START, Joined(args))) == args
  {
    JoinedRun([], args);
    assert [] + args == args;
  }

  lemma {:induction false} JoinedRun(done: seq<string>, args: seq<string>)
    requires forall i :: 0 <= i < |args| ==> IsArgument(args[i])
    ensures UrRun(Ur(Blank, "", done), Joined(args)) == Ur(Blank, "", done + args)
    decreases |args|
  {
    if args == [] {
      assert done + args == done;
    } else {
      var st, a, rest := Ur(Blank, "", done), args[0], Joined(args[1..]);
      assert Joined(args) == a + " " + rest;
      hide UrRun, UrStep, Joined, IsToken;
      UrArgument(done, a);
      UrConcat(st, a + " ", rest);
      JoinedRun(done + [a], args[1..]);
      assert done + [a] + args[1..] == done + args;
    }
  }

  lemma UrArgument(done: seq<string>, a: string)
    requires IsArgument(a)
    ensures UrRun(Ur(Blank, "", done), a + " ") == Ur(Blank, "", done + [a])
  {
    hide IsToken;
    var st, st1 := Ur(Blank, "", done), Ur(Arg, a, done);
    UrToken(st, a);
    assert "" + a == a;
    UrConcat(st, a, " ");
    assert " "[..0] == "";
    assert UrRun(st1, " ") == UrStep(UrRun(st1, ""), ' ');
  }

  /** Blanks and tabs hold arguments apart, any number of them. */
  lemma BlanksSkipped(done: seq<string>, a: string, b: string, c: char)
    requires IsArgument(a) && (forall i :: 0 <= i < |b| ==> b[i] == ' ' || b[i] == '\t') && (c == ' ' || c == '\t')
    ensures UrRun(Ur(Blank, "", done), b + a + [c]) == Ur(Blank, "", done + [a])
  {
    var st := Ur(Blank, "", done);
    OnlyBlanks(st, b);
    UrConcat(st, b, a);
    UrConcat(st, b + a, [c]);
    hide IsToken;
    UrToken(st, a);
    assert "" + a == a;
    var st1 := Ur(Arg, a, done);
    assert [c][..0] == "";
    assert UrRun(st1, [c]) == UrStep(UrRun(st1, ""), c);
  }

  lemma {:induction false} OnlyBlanks(st: Ur, b: string)
    requires st.mode == Blank && forall i :: 0 <= i < |b| ==> b[i] == ' ' || b[i] == '\t'
    ensures UrRun(st, b) == st
    decreases |b|
  {
    if b != "" {
      OnlyBlanks(st, b[..|b| - 1]);
    }
  }

  /** The argument under way; without its last character if that is a backslash not yet used. */
  predicate Underway(st: Ur) {
    && (st.mode == Arg ==> IsArgument(st.argum))
    && (st.mode == Escaped ==> EndsInBackslash(st.argum) && IsToken(st.argum[..|st.argum| - 1]))
  }

  lemma {:induction false} UnravelTokens(s: string)
    ensures var st := UrRun(UR_START, s); Underway(st) && forall i :: 0 <= i < |st.args| ==> IsArgument(st.args[i])
    ensures var args := UrEnd(UrRun(UR_START, s)); forall i :: 0 <= i < |args| ==> IsArgument(args[i])
    decreases |s|
  {
    if s != "" {
      var st, c := UrRun(UR_START, s[..|s| - 1]), s[|s| - 1];
      UnravelTokens(s[..|s| - 1]);
      assert UrRun(UR_START, s) == UrStep(st, c);
      TokenStep(st, c);
    }
  }

  lemma TokenStep(st: Ur, c: char)
    requires Underway(st)
    ensures Underway(UrStep(st, c))
  {
    if st.mode == Blank {
      assert [c][1..] == "" && [c][..0] == "";
    } else if st.mode == Arg {
      TokenMore(st.argum, [c]);
      assert (st.argum + [c])[..|st.argum|] == st.argum;
    } else {
      var a := st.argum[..|st.argum| - 1];
      TokenMore(a, [BSLASH, c]);
      assert st.argum + [c] == a + [BSLASH, c];
    }
  }

  lemma {:induction false} TokenMore(a: string, b: string)
    requires IsToken(a) && |b| > 0
    requires |b| == 1 || (|b| == 2 && b[0] == BSLASH)
    ensures (|b| == 1 ==> b[0] != BSLASH && !IsBlank(b[0])) ==> IsToken(a + b)
    decreases |a|
  {
    if a == "" {
      assert a + b == b;
      assert |b| == 2 ==> b[2..] == "";
      assert |b| == 1 ==> b[1..] == "";
    } else if a[0] == BSLASH {
      TokenMore(a[2..], b);
      assert (a + b)[2..] == a[2..] + b;
    } else {
      TokenMore(a[1..], b);
      assert (a + b)[1..] == a[1..] + b;
    }
  }

  /** A line that ends in an odd number of them ends in one that escapes nothing: then the last
      argument is given up. */
  lemma {:induction false} LoneBackslash(s: string)
    ensures var st := UrRun(UR_START, s);
      && (st.mode == Escaped <==> Trailing(s) % 2 == 1)
      && (st.mode == Escaped ==> UrEnd(st) == st.args)
    decreases |s|
  {
    if s != "" {
      LoneBackslash(s[..|s| - 1]);
    }
  }

  /** A line that loses its second argument. */
  lemma LostArgument()
    ensures UrEnd(UrRun(UR_START, "a b\\")) == ["a"]
  {
    var s := "a b\\";
    assert s[..3] == "a b" && s[..3][..2] == "a " && "a "[..1] == "a" && "a"[..0] == "";
    assert UrRun(UR_START, "a") == UrStep(UrRun(UR_START, ""), 'a');
    assert UrRun(UR_START, "a ") == UrStep(UrRun(UR_START, "a"), ' ');
    assert UrRun(UR_START, "a b") == UrStep(UrRun(UR_START, "a "), 'b');
    assert UrRun(UR_START, s) == UrStep(UrRun(UR_START, "a b"), BSLASH);
  }

  /** Later characters only add arguments, and add to the one under way. */
  ghost predicate Extends(st: Ur, st': Ur) {
    st.args <= st'.args && st.mode == Arg ==>
      if |st'.args| == |st.args| then st'.mode != Blank && st.argum <= st'.argum else st.argum <= st'.args[|st.args|]
  }

  lemma {:induction false} UrExtends(st: Ur, s: string)
    ensures st.args <= UrRun(st, s).args && (st.mode == Arg ==> Extends(st, UrRun(st, s)))
    decreases |s|
  {
    if s != "" {
      UrExtends(st, s[..|s| - 1]);
    }
  }

  // ----------------------------------------------------------------- addargs3

  /** The names for < and >. */
  datatype Files = Files(input: string, output: string)

  datatype Aa = Aa(escaped: bool, argum: string)

  function AaStep(f: Files, st: Aa, c: char): Aa {
    if st.escaped then Aa(false, st.argum + [c])
    else if c == BSLASH then st.(escaped := true)
    else if c == '<' then st.(argum := st.argum + f.input)
    else if c == '>' then st.(argum := st.argum + f.output)
    else st.(argum := st.argum + [c])
  }

  function AaRun(f: Files, st: Aa, s: string): Aa {
    if s == "" then st else AaStep(f, AaRun(f, st, s[..|s| - 1]), s[|s| - 1])
  }

  const AA_START := Aa(false, "")

  /** addargs3 for a phase that is not a combiner */
  method AddArgs(f: Files, arg: string) returns (argum: string)
    ensures argum == AaRun(f, AA_START, arg).argum
    ensures IsPlain(arg, "<>") ==> argum == arg
  {
    var st := AA_START;
    var i := 0;
    assert arg[..0] == "";
    while i < |arg|
      invariant 0 <= i <= |arg| && st == AaRun(f, AA_START, arg[..i])
    {
      assert arg[..i + 1][..i] == arg[..i] && arg[..i + 1][i] == arg[i];
      st := AaStep(f, st, arg[i]);
      i := i + 1;
    }
    assert arg[..i] == arg;
    if IsPlain(arg, "<>") {
      AaPlain(f, AA_START, arg);
      assert "" + arg == arg;
    }
    return st.argum;
  }

  lemma {:induction false} AaConcat(f: Files, st: Aa, s: string, t: string)
    ensures AaRun(f, st, s + t) == AaRun(f, AaRun(f, st, s), t)
    decreases |t|
  {
    if t == "" {
      assert s + t == s;
    } else {
      assert (s + t)[..|s + t| - 1] == s + t[..|t| - 1];
      AaConcat(f, st, s, t[..|t| - 1]);
    }
  }

  lemma {:induction false} AaPlain(f: Files, st: Aa, t: string)
    requires !st.escaped && IsPlain(t, "<>")
    ensures AaRun(f, st, t) == Aa(false, st.argum + t)
    decreases |t|
  {
    if t == "" {
      assert st.argum + t == st.argum;
    } else {
      var init, c := t[..|t| - 1], t[|t| - 1];
      AaPlain(f, st, init);
      assert t == init + [c];
      Assoc(st.argum, init, [c]);
    }
  }

  lemma AaOne(f: Files, st: Aa, c: char)
    ensures AaRun(f, st, [c]) == AaStep(f, st, c)
  {
    assert [c][..0] == "";
    assert AaRun(f, st, [c]) == AaStep(f, AaRun(f, st, ""), c);
  }

  /** In an argument < stands for the name of the input file and > for that of the output file. */
  lemma FileNames(f: Files, p: string, q: string)
    requires IsPlain(p, "<>") && IsPlain(q, "<>")
    ensures AaRun(f, AA_START, p + "<" + q).argum == p + f.input + q
    ensures AaRun(f, AA_START, p + ">" + q).argum == p + f.output + q
  {
    hide AaRun, IsPlain;
    AaPlain(f, AA_START, p);
    assert "" + p == p;
    AaConcat(f, AA_START, p, "<");
    AaOne(f, Aa(false, p), '<');
    AaConcat(f, AA_START, p + "<", q);
    AaPlain(f, Aa(false, p + f.input), q);
    AaConcat(f, AA_START, p, ">");
    AaOne(f, Aa(false, p), '>');
    AaConcat(f, AA_START, p + ">", q);
    AaPlain(f, Aa(false, p + f.output), q);
  }

  /** Escaped text comes out as it was. */
  lemma {:induction false} AaEscaped(f: Files, st: Aa, x: string)
    requires !st.escaped
    ensures AaRun(f, st, Escape(x)) == Aa(false, st.argum + x)
    decreases |x|
  {
    if x == "" {
      assert st.argum + "" == st.argum;
    } else {
      var two, rest := [BSLASH, x[0]], Escape(x[1..]);
      assert Escape(x) == two + rest;
      assert two[..1] == [BSLASH] && [BSLASH][..0] == "";
      assert AaRun(f, st, [BSLASH]) == AaStep(f, AaRun(f, st, ""), BSLASH);
      assert AaRun(f, st, two) == Aa(false, st.argum + [x[0]]);
      hide AaRun, AaStep, Escape;
      AaConcat(f, st, two, rest);
      AaEscaped(f, Aa(false, st.argum + [x[0]]), x[1..]);
      assert st.argum + [x[0]] + x[1..] == st.argum + x;
    }
  }

  lemma {:induction false} AaAppends(f: Files, st: Aa, s: string)
    ensures st.argum <= AaRun(f, st, s).argum
    decreases |s|
  {
    if s != "" {
      AaAppends(f, st, s[..|s| - 1]);
    }
  }

  // -------------------------------------------------------------- all together

  /** unravel and addargs3 agree on what is escaped. */
  lemma {:induction false} UrAa(f: Files, s: string)
    ensures var st := UrRun(UR_START, s);
      (st.mode == Blank ==> st.argum == "") && (st.mode != Blank ==>
        (AaRun(f, AA_START, st.argum).escaped <==> st.mode == Escaped))
    decreases |s|
  {
    if s != "" {
      var init, c := s[..|s| - 1], s[|s| - 1];
      UrAa(f, init);
      var st, st' := UrRun(UR_START, init), UrRun(UR_START, s);
      assert st' == UrStep(st, c);
      if st.mode == Blank {
        assert [c][..0] == "";
      } else {
        assert (st.argum + [c])[..|st.argum|] == st.argum;
      }
    }
  }

  /** The line that is taken apart into arguments. */
  function Expanded(vars: map<string, string>, line: string): string {
    SeRun(SE_START, SvRun(vars, SV_START, line).result).result
  }

  /** What has been scanned when the variable is reached, and the text of it before the star. */
  function Ahead(vars: map<string, string>, before: string, pre: string): string {
    SvRun(vars, SV_START, before).result + pre
  }

  /** The place of the text is an ordinary one: not in a reference to a variable, not in a
      conditional, not after a backslash. */
  predicate Ordinary(vars: map<string, string>, before: string, pre: string) {
    var sv, se := SvRun(vars, SV_START, before), SeRun(SE_START, Ahead(vars, before, pre));
    && sv.mode == Text && !sv.escaped && sv.name == "" && se.mode == EText && !se.escaped
    && UrRun(UR_START, se.result).mode != Escaped
  }

  /** The number of arguments before the one with the text. */
  function Place(vars: map<string, string>, before: string, pre: string): nat {
    |UrRun(UR_START, SeRun(SE_START, Ahead(vars, before, pre)).result).args|
  }

  /** Where the text ends in the line that is taken apart. */
  function TextEnd(vars: map<string, string>, before: string, pre: string, x: string): nat {
    |SeRun(SE_START, Ahead(vars, before, pre)).result| + |Escape(x)|
  }

  /** A blank that is not escaped stands at place n of the line or later. */
  predicate BlankAfter(line: string, n: nat) {
    exists j :: n <= j < |line| && IsBlank(line[j]) && Trailing(line[..j]) % 2 == 0
  }

  /** The argument under way at place n is not lost: the line does not end in a lone backslash,
      or else the argument ends before. */
  predicate Kept(line: string, n: nat) { Trailing(line) % 2 == 1 ==> BlankAfter(line, n) }

  /** An argument ends at the first blank that is not escaped. */
  lemma {:induction false} ArgumentEnds(line: string, n: nat)
    requires n <= |line| && UrRun(UR_START, line[..n]).mode == Arg
    ensures var st, st' := UrRun(UR_START, line[..n]), UrRun(UR_START, line);
      if BlankAfter(line, n) then |st'.args| > |st.args| else |st'.args| == |st.args| && st'.mode != Blank
    decreases |line|
  {
    if n == |line| {
      assert line[..n] == line;
    } else {
      var init, c := line[..|line| - 1], line[|line| - 1];
      assert init[..n] == line[..n];
      ArgumentEnds(init, n);
      LoneBackslash(init);
      BlankAfterMore(line, n);
      hide BlankAfter, Trailing;
      assert UrRun(UR_START, line) == UrStep(UrRun(UR_START, init), c);
    }
  }

  lemma BlankAfterMore(line: string, n: nat)
    requires n < |line|
    ensures var init := line[..|line| - 1];
      BlankAfter(line, n) <==> BlankAfter(init, n) || (IsBlank(line[|line| - 1]) && Trailing(init) % 2 == 0)
  {
    hide Trailing;
    var init := line[..|line| - 1];
    assert forall j :: 0 <= j < |init| ==> init[j] == line[j] && init[..j] == line[..j];
    if j :| n <= j < |init| && IsBlank(init[j]) && Trailing(init[..j]) % 2 == 0 {
      assert line[..j] == init[..j];
    }
  }

  ghost predicate Contains(arg: string, x: string) { exists p, q :: arg == p + x + q }

  /** Text x that is in a variable in escaped form comes out unchanged within one argument,
      whatever characters it has, for every line that uses the variable in an ordinary place.
      Only a lone backslash at the end can take it away, and does so with its whole argument. */
  lemma TextSurvives(vars: map<string, string>, name: string, before: string, after: string, pre: string, x: string,
      post: string, f: Files)
    requires x != "" && IsName(name) && name in vars && vars[name] == pre + Escape(x) + post
      && Ordinary(vars, before, pre)
    ensures var line, k := Expanded(vars, before + "{" + name + "}" + after), Place(vars, before, pre);
      var args := UrEnd(UrRun(UR_START, line));
      && (k < |args| <==> Kept(line, TextEnd(vars, before, pre, x)))
      && (k < |args| ==> Contains(AaRun(f, AA_START, args[k]).argum, x))
        && |args| >= k
  {
    hide SvRun, SeRun, UrRun, AaRun, Escape, IsName;
    var r1 := SvResult(vars, name, before, after, pre, x, post);
    var a := Ahead(vars, before, pre);
    var r2 := SeResult(a, x, r1);
    UrResult(SeRun(SE_START, a).result, x, r2, f);
  }

  lemma SvResult(vars: map<string, string>, name: string, before: string, after: string, pre: string, x: string,
      post: string) returns (rest: string)
    requires IsName(name) && name in vars && vars[name] == pre + Escape(x) + post
    requires var sv := SvRun(vars, SV_START, before); sv.mode == Text && !sv.escaped && sv.name == ""
    ensures SvRun(vars, SV_START, before + "{" + name + "}" + after).result ==
      Ahead(vars, before, pre) + Escape(x) + rest
  {
    hide SvRun, Escape, IsName;
    var sv := SvRun(vars, SV_START, before);
    var ref := "{" + name + "}";
    SvConcat(vars, SV_START, before, ref);
    SvReplaces(vars, sv, name);
    assert before + "{" + name + "}" + after == before + ref + after;
    SvConcat(vars, SV_START, before + ref, after);
    var st := SvRun(vars, SV_START, before + ref);
    SvAppends(vars, st, after);
    var v := SvRun(vars, st, after).result;
    rest := post + v[|st.result|..];
    assert v == st.result + v[|st.result|..];
    assert st.result == sv.result + pre + Escape(x) + post;
  }

  lemma SeResult(a: string, x: string, b: string) returns (rest: string)
    requires SeRun(SE_START, a).mode == EText && !SeRun(SE_START, a).escaped
    ensures SeRun(SE_START, a + Escape(x) + b).result == SeRun(SE_START, a).result + Escape(x) + rest
  {
    hide SeRun, Escape;
    var st := SeRun(SE_START, a);
    SeConcat(SE_START, a, Escape(x));
    SeEscaped(st, x);
    SeConcat(SE_START, a + Escape(x), b);
    var st1 := SeRun(SE_START, a + Escape(x));
    SeAppends(st1, b);
    var v := SeRun(st1, b).result;
    rest := v[|st1.result|..];
    assert v == st1.result + rest;
  }

  lemma UrResult(c: string, x: string, b: string, f: Files)
    requires x != "" && UrRun(UR_START, c).mode != Escaped
    ensures var line, k := c + Escape(x) + b, |UrRun(UR_START, c).args|;
      var args := UrEnd(UrRun(UR_START, line));
      && (k < |args| <==> Kept(line, |c| + |Escape(x)|))
      && (k < |args| ==> Contains(AaRun(f, AA_START, args[k]).argum, x))
        && |args| >= k
  {
    hide UrRun, AaRun, Trailing, Escape;
    var line := c + Escape(x) + b;
    var k := |UrRun(UR_START, c).args|;
    LoneBackslash(line);
    var n := |c| + |Escape(x)|;
    assert line[..n] == c + Escape(x);
    UrTextIs(c, x);
    ArgumentEnds(line, n);
    hide BlankAfter;
    var w := UrPart(c, x, b);
    UrAa(f, c);
    BegunAa(f, UrRun(UR_START, c));
    if k < |UrEnd(UrRun(UR_START, line))| {
      var q := AaResult(f, Begun(UrRun(UR_START, c)), x, w);
      assert Contains(AaRun(f, AA_START, UrEnd(UrRun(UR_START, line))[k]).argum, x);
    }
  }

  lemma BegunAa(f: Files, st: Ur)
    requires st.mode != Blank ==> (AaRun(f, AA_START, st.argum).escaped <==> st.mode == Escaped)
    ensures st.mode != Escaped ==> !AaRun(f, AA_START, Begun(st)).escaped
  {
  }

  lemma UrTextIs(c: string, x: string)
    requires x != "" && UrRun(UR_START, c).mode != Escaped
    ensures UrRun(UR_START, c + Escape(x)).mode == Arg
    ensures UrRun(UR_START, c + Escape(x)).args == UrRun(UR_START, c).args
  {
    UrConcat(UR_START, c, Escape(x));
    UrEscaped(UrRun(UR_START, c), x);
  }

  lemma UrPart(c: string, x: string, b: string) returns (w: string)
    requires x != "" && UrRun(UR_START, c).mode != Escaped
    ensures var st, k := UrRun(UR_START, c + Escape(x) + b), |UrRun(UR_START, c).args|;
      && |st.args| >= k && (|st.args| == k ==> st.mode != Blank)
      && (k < |UrEnd(st)| ==> UrEnd(st)[k] == Begun(UrRun(UR_START, c)) + Escape(x) + w)
  {
    hide UrRun, Escape;
    var st := UrRun(UR_START, c);
    UrConcat(UR_START, c, Escape(x));
    UrEscaped(st, x);
    UrConcat(UR_START, c + Escape(x), b);
    var st1 := UrRun(UR_START, c + Escape(x));
    UrExtends(st1, b);
    var args, k := UrEnd(UrRun(st1, b)), |st.args|;
    w := "";
    if k < |args| {
      assert st1.argum <= args[k];
      w := args[k][|st1.argum|..];
      assert args[k] == st1.argum + w;
    }
  }

  lemma AaResult(f: Files, u: string, x: string, w: string) returns (q: string)
    requires !AaRun(f, AA_START, u).escaped
    ensures AaRun(f, AA_START, u + Escape(x) + w).argum == AaRun(f, AA_START, u).argum + x + q
  {
    hide AaRun;
    var s0 := AaRun(f, AA_START, u);
    AaConcat(f, AA_START, u, Escape(x));
    AaEscaped(f, s0, x);
    AaConcat(f, AA_START, u + Escape(x), w);
    var s1 := AaRun(f, AA_START, u + Escape(x));
    AaAppends(f, s1, w);
    var v := AaRun(f, s1, w).argum;
    q := v[|s1.argum|..];
    assert v == s1.argum + q;
  }

  // ------------------------------------------------- lines as one writes them

  /** A piece of an argument: a character that stands for itself, one that does so behind a
      backslash, or the name of a file. */
  datatype Mark = Itself(c: char) | Slashed(c: char) | InFile | OutFile

  predicate MarkOk(m: Mark) { m.Itself? ==> m.c != BSLASH && m.c !in "<>{(" && !IsBlank(m.c) }

  function MarkText(m: Mark): string {
    match m
    case Itself(c) => [c]
    case Slashed(c) => ['\\', c]
    case InFile => "<"
    case OutFile => ">"
  }

  function MarkValue(f: Files, m: Mark): string {
    match m
    case Itself(c) => [c]
    case Slashed(c) => [c]
    case InFile => f.input
    case OutFile => f.output
  }

  /** What is written for some pieces. */
  function Written(w: seq<Mark>): string { if w == [] then "" else MarkText(w[0]) + Written(w[1..]) }

  /** What they stand for. */
  function Value(f: Files, w: seq<Mark>): string { if w == [] then "" else MarkValue(f, w[0]) + Value(f, w[1..]) }

  predicate WordOk(w: seq<Mark>) { w != [] && forall m :: m in w ==> MarkOk(m) }

  function AllWritten(ws: seq<seq<Mark>>): seq<string> {
    if ws == [] then [] else [Written(ws[0])] + AllWritten(ws[1..])
  }

  function AllValues(f: Files, ws: seq<seq<Mark>>): seq<string> {
    if ws == [] then [] else [Value(f, ws[0])] + AllValues(f, ws[1..])
  }

  lemma {:induction false} WrittenIs(w: seq<Mark>)
    requires forall m :: m in w ==> MarkOk(m)
    ensures NoBare(Written(w), '{') && NoBare(Written(w), '(') && IsToken(Written(w)) && (w != [] ==> Written(w) != "")
    decreases |w|
  {
    if w != [] {
      WrittenIs(w[1..]);
      assert MarkOk(w[0]);
      var n := if w[0].Slashed? then 2 else 1;
      assert Written(w)[n..] == Written(w[1..]);
    }
  }

  lemma {:induction false} WrittenRun(f: Files, st: Aa, w: seq<Mark>)
    requires !st.escaped && forall m :: m in w ==> MarkOk(m)
    ensures AaRun(f, st, Written(w)) == Aa(false, st.argum + Value(f, w))
    decreases |w|
  {
    if w == [] {
      assert st.argum + "" == st.argum;
    } else {
      var one, v, rest := MarkText(w[0]), MarkValue(f, w[0]), Written(w[1..]);
      assert MarkOk(w[0]);
      MarkRun(f, st, w[0]);
      AaConcat(f, st, one, rest);
      hide AaRun;
      WrittenRun(f, Aa(false, st.argum + v), w[1..]);
      Assoc(st.argum, v, Value(f, w[1..]));
    }
  }

  lemma MarkRun(f: Files, st: Aa, m: Mark)
    requires !st.escaped && MarkOk(m)
    ensures AaRun(f, st, MarkText(m)) == Aa(false, st.argum + MarkValue(f, m))
  {
    var t := MarkText(m);
    AaOne(f, st, t[0]);
    if m.Slashed? {
      assert t == [BSLASH] + [m.c];
      AaConcat(f, st, [BSLASH], [m.c]);
      AaOne(f, st.(escaped := true), m.c);
    } else {
      assert t == [t[0]];
    }
  }

  lemma {:induction false} NoBareMore(s: string, t: string, c: char)
    requires NoBare(s, c) && NoBare(t, c)
    ensures NoBare(s + t, c)
    decreases |s|
  {
    if s == "" {
      assert s + t == t;
    } else {
      var n := if s[0] == BSLASH then 2 else 1;
      NoBareMore(s[n..], t, c);
      assert (s + t)[n..] == s[n..] + t;
    }
  }

  lemma {:induction false} LineIs(ws: seq<seq<Mark>>)
    requires forall w :: w in ws ==> WordOk(w)
    ensures var texts := AllWritten(ws);
      && (forall i :: 0 <= i < |texts| ==> IsArgument(texts[i]))
      && NoBare(Joined(texts), '{') && NoBare(Joined(texts), '(')
    decreases |ws|
  {
    if ws != [] {
      assert WordOk(ws[0]);
      WrittenIs(ws[0]);
      LineIs(ws[1..]);
      var a, texts := Written(ws[0]), AllWritten(ws);
      assert texts[1..] == AllWritten(ws[1..]);
      assert Joined(texts) == a + " " + Joined(texts[1..]);
      hide Written, AllWritten, Joined, IsToken;
      forall c | c == '{' || c == '(' ensures NoBare(a + " " + Joined(texts[1..]), c) {
        BlankIsNotBare(c);
        NoBareMore(a, " ", c);
        NoBareMore(a + " ", Joined(texts[1..]), c);
      }
    }
  }

  lemma BlankIsNotBare(c: char)
    requires c != ' '
    ensures NoBare(" ", c)
  {
    assert " "[1..] == "";
  }

  lemma {:induction false} ValuesAre(f: Files, ws: seq<seq<Mark>>)
    requires forall w :: w in ws ==> WordOk(w)
    ensures |AllWritten(ws)| == |AllValues(f, ws)| == |ws|
    ensures forall i :: 0 <= i < |ws| ==> AaRun(f, AA_START, AllWritten(ws)[i]).argum == AllValues(f, ws)[i]
    decreases |ws|
  {
    if ws != [] {
      assert WordOk(ws[0]);
      WrittenRun(f, AA_START, ws[0]);
      assert "" + Value(f, ws[0]) == Value(f, ws[0]);
      ValuesAre(f, ws[1..]);
    }
  }

  /** A line that is written as words becomes the arguments that the words stand for. */
  lemma WordsMean(vars: map<string, string>, f: Files, ws: seq<seq<Mark>>)
    requires forall w :: w in ws ==> WordOk(w)
    ensures var line := Joined(AllWritten(ws));
      && SvRun(vars, SV_START, line).mode != Fatal && UrEnd(UrRun(UR_START, Expanded(vars, line))) == AllWritten(ws)
      && |AllWritten(ws)| == |AllValues(f, ws)| == |ws|
      && forall i :: 0 <= i < |ws| ==> AaRun(f, AA_START, AllWritten(ws)[i]).argum == AllValues(f, ws)[i]
  {
    hide SvRun, SeRun, UrRun, AaRun, AllWritten, AllValues, Joined, IsArgument, WordOk;
    var line := Joined(AllWritten(ws));
    LineIs(ws);
    SvUnchanged(vars, SV_START, line);
    assert "" + line == line;
    SeUnchanged(SE_START, line);
    UnravelJoined(AllWritten(ws));
    ValuesAre(f, ws);
  }

  /** getcallargs: the arguments for a phase. */
  method GetCallArgs(vars: map<string, string>, argd: string, f: Files) returns (args: seq<string>, fatal: bool)
    ensures fatal <==> SvRun(vars, SV_START, argd).mode == Fatal
    ensures var raw := UrEnd(UrRun(UR_START, Expanded(vars, argd)));
      !fatal ==> |args| == |raw| && forall i :: 0 <= i < |raw| ==> args[i] == AaRun(f, AA_START, raw[i]).argum
    ensures forall ws :: argd == Joined(AllWritten(ws)) && (forall w :: w in ws ==> WordOk(w)) ==>
      !fatal && args == AllValues(f, ws)
  {
    hide SvRun, SeRun, UrRun, AaRun, Joined, AllWritten, AllValues, WordOk;
    forall ws | argd == Joined(AllWritten(ws)) && forall w :: w in ws ==> WordOk(w)
      ensures SvRun(vars, SV_START, argd).mode != Fatal
      ensures var raw := UrEnd(UrRun(UR_START, Expanded(vars, argd)));
        && |raw| == |AllValues(f, ws)|
        && forall i :: 0 <= i < |raw| ==> AaRun(f, AA_START, raw[i]).argum == AllValues(f, ws)[i]
    {
      WordsMean(vars, f, ws);
      ValuesAre(f, ws);
    }
    var arg1;
    arg1, fatal := ScanVars(vars, argd);
    args := [];
    if fatal {
      return;
    }
    var arg2 := ScanExpr(arg1);
    var raw := Unravel(arg2);
    for i := 0 to |raw|
      invariant |args| == i && forall k :: 0 <= k < i ==> args[k] == AaRun(f, AA_START, raw[k]).argum
    {
      var a := AddArgs(f, raw[i]);
      args := args + [a];
    }
  }

  /** A name that an assignment can give to a variable. */
  predicate IsVariable(name: string) { IsName(name) && forall i :: 0 <= i < |name| ==> name[i] !in " \t=" }

  /** The template of a flag after its own variables have been replaced. */
  function Template(vars: map<string, string>, template: string): string { SvRun(vars, SV_START, template).result }

  function AssignedVars(vars: map<string, string>, name: string, template: string, x: string): map<string, string> {
    vars[name := Filled(Template(vars, template), Star(x))]
  }

  /** From a flag to the arguments of a program: the text x that the star of the flag stands for
      goes into a variable, and the variable into the arguments. With one star in the template
      and the variable in an ordinary place, some argument contains x, whatever x is made of,
      unless a lone backslash ends the line and x is in the last argument, which is then lost. */
  method FlagToArgs(vars: map<string, string>, name: string, template: string, x: string, argd: string, f: Files,
                    ghost before: string, ghost after: string) returns (args: Option<seq<string>>)
    requires IsVariable(name) && argd == before + "{" + name + "}" + after
    ensures args.Some? <==>
      && SvRun(vars, SV_START, template).mode != Fatal && Stars(Template(vars, template)) <= 1
      && SvRun(AssignedVars(vars, name, template, x), SV_START, argd).mode != Fatal
    ensures args.Some? && x != "" && Stars(Template(vars, template)) == 1 ==>
      var t, vars' := Template(vars, template), AssignedVars(vars, name, template, x);
      var pre := t[..StarAt(t)];
      Ordinary(vars', before, pre) ==>
        var k := Place(vars', before, pre);
        if Kept(Expanded(vars', argd), TextEnd(vars', before, pre, x))
        then k < |args.v| && Contains(args.v[k], x)
        else |args.v| == k
  {
    hide SvRun, SeRun, UrRun, AaRun, Escape, IsName, Stars, Filled, StarAt, Kept, Ordinary, Contains, Place, Trailing;
    var line := name + "=" + template;
    AssignmentLine(name, template);
    var r := DoAssign(vars, line, Star(x));
    if !r.Assigned? {
      return None;
    }
    var callargs, fatal := GetCallArgs(r.vars, argd, f);
    if fatal {
      return None;
    }
    args := Some(callargs);
    ghost var t := Template(vars, template);
    if x != "" && Stars(t) == 1 && Ordinary(r.vars, before, t[..StarAt(t)]) {
      ghost var post := OneStar(t, x);
      TextSurvives(r.vars, name, before, after, t[..StarAt(t)], x, post, f);
    }
  }

  lemma AssignmentLine(name: string, template: string)
    requires IsVariable(name)
    ensures var line := name + "=" + template;
      '=' in line && Until(line, 0, " \t=") == |name| == Until(line, |name|, "=") && line[..|name|] == name
        && line[|name| + 1..] == template
  {
    var line := name + "=" + template;
    assert line[|name|] == '=';
    assert forall i :: 0 <= i < |name| ==> line[i] == name[i];
  }
}
