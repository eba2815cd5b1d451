/**
 The balanced-JSON scanner over cookie hydration data: a character machine,
 what it means in terms of strings and braces, and what it does to JSON texts
 (RFC 8259, sections 2, 4, 5 and 7).
 */
module JsonScanner {
  import opened Options

  datatype Scan = Scan(depth: int, inStr: bool, esc: bool)

  const OUTSIDE := Scan(0, false, false)

  // The loop body, without the early return.
  function Next(st: Scan, ch: char): Scan {
    if !st.inStr then
      if ch == '"' then st.(inStr := true)
      else if ch == '{' then st.(depth := st.depth + 1)
      else if ch == '}' then st.(depth := st.depth - 1)
      else st
    else Scan(st.depth, !(ch == '"' && !st.esc), !st.esc && ch == '\\')
  }

  function Run(st: Scan, s: string): Scan {
    if s == "" then st else Next(Run(st, s[..|s| - 1]), s[|s| - 1])
  }

  // ------------------------------------------------------------ strings and braces, read lexeme by lexeme

  // Behind the opening quote: how far to just behind the closing one.
  function StringEnd(t: string): (n: Option<nat>)
    ensures n.Some? ==> 0 < n.value <= |t|
  {
    if t == "" then None
    else if t[0] == '"' then Some(1)
    else
      var skip := if t[0] == '\\' then 2 else 1;
      if |t| < skip then None else
      match StringEnd(t[skip..])
      case None => None
      case Some(n) => Some(n + skip)
  }

  // Opening minus closing braces outside strings.
  function Net(p: string): int
    decreases |p|
  {
    if p == "" then 0
    else if p[0] == '{' then 1 + Net(p[1..])
    else if p[0] == '}' then Net(p[1..]) - 1
    else if p[0] == '"' then
      match StringEnd(p[1..])
      case None => 0
      case Some(n) => Net(p[1..][n..])
    else Net(p[1..])
  }

  // s[..n] is the shortest non-empty prefix whose braces outside strings balance.
  ghost predicate ShortestBalanced(s: string, n: nat) {
    0 < n <= |s| && Net(s[..n]) == 0 && forall m | 0 < m < n :: Net(s[..m]) != 0
  }

  // ------------------------------------------------------------ the machine and the lexemes agree

  lemma {:induction false} RunConcat(st: Scan, a: string, b: string)
    ensures Run(st, a + b) == Run(Run(st, a), b)
  {
    if b == "" {
      assert a + b == a;
    } else {
      assert (a + b)[..|a + b| - 1] == a + b[..|b| - 1];
      RunConcat(st, a, b[..|b| - 1]);
    }
  }

  lemma RunOne(st: Scan, c: char)
    ensures Run(st, [c]) == Next(st, c)
  {
    assert [c][..0] == "";
    assert Run(st, [c][..0]) == st;
  }

  lemma RunFirst(st: Scan, s: string)
    requires s != ""
    ensures Run(st, s) == Run(Next(st, s[0]), s[1..])
  {
    assert s == [s[0]] + s[1..];
    RunConcat(st, [s[0]], s[1..]);
    RunOne(st, s[0]);
  }

  // Inside a string the machine leaves it exactly behind the closing quote.
  lemma {:induction false} RunString(d: int, t: string)
    ensures match StringEnd(t)
            case None => Run(Scan(d, true, false), t).depth == d
            case Some(n) => Run(Scan(d, true, false), t[..n]) == Scan(d, false, false)
    decreases |t|
  {
    var st := Scan(d, true, false);
    if t == "" {
    } else if t[0] == '"' {
      assert t[..1] == [t[0]];
      RunOne(st, t[0]);
    } else if t[0] != '\\' {
      RunFirst(st, t);
      RunString(d, t[1..]);
      if StringEnd(t).Some? {
        RunFirst(st, t[..StringEnd(t).value]);
        assert t[..StringEnd(t).value][1..] == t[1..][..StringEnd(t).value - 1];
      }
    } else {
      RunEscape(d, t);
    }
  }

  lemma {:induction false} RunEscape(d: int, t: string)
    requires t != "" && t[0] == '\\'
    ensures match StringEnd(t)
            case None => Run(Scan(d, true, false), t).depth == d
            case Some(n) => Run(Scan(d, true, false), t[..n]) == Scan(d, false, false)
    decreases |t|, 0
  {
    var st := Scan(d, true, false);
    RunFirst(st, t);
    if |t| == 1 {
      assert t[1..] == "";
    } else {
      var rest := t[2..];
      assert t[1..][1..] == rest;
      RunFirst(Scan(d, true, true), t[1..]);
      RunString(d, rest);
      if StringEnd(t).Some? {
        var n := StringEnd(t).value;
        assert t[..n] == [t[0], t[1]] + rest[..n - 2];
        RunConcat(st, [t[0], t[1]], rest[..n - 2]);
        RunFirst(st, [t[0], t[1]]);
        RunOne(Scan(d, true, true), t[1]);
        assert [t[0], t[1]][1..] == [t[1]];
      }
    }
  }

  lemma {:induction false} MachineCountsBraces(d: int, p: string)
    ensures Run(Scan(d, false, false), p).depth == d + Net(p)
    decreases |p|
  {
    var st := Scan(d, false, false);
    if p != "" {
      RunFirst(st, p);
      if p[0] == '"' {
        var t := p[1..];
        RunString(d, t);
        if StringEnd(t).Some? {
          var n := StringEnd(t).value;
          assert t == t[..n] + t[n..];
          RunConcat(Scan(d, true, false), t[..n], t[n..]);
          MachineCountsBraces(d, t[n..]);
        }
      } else {
        MachineCountsBraces(if p[0] == '{' then d + 1 else if p[0] == '}' then d - 1 else d, p[1..]);
      }
    }
  }

  /**
   The scanner returns the shortest balanced prefix of a text that starts with
   a brace, and nothing exactly when there is none.
   */
  method ExtractBalancedJson(s: string) returns (json: Option<string>)
    ensures s == "" || s[0] != '{' ==> json.None?
    ensures s != "" && s[0] == '{' ==>
              match json
              case Some(text) => text <= s && ShortestBalanced(s, |text|)
              case None => forall n: nat :: !ShortestBalanced(s, n)
  {
    if s == "" || s[0] != '{' { return None; }
    var depth, inStr, esc := 0, false, false;
    for i := 0 to |s|
      invariant Run(OUTSIDE, s[..i]) == Scan(depth, inStr, esc)
      invariant forall m | 0 < m <= i :: Net(s[..m]) != 0
    {
      var ch := s[i];
      assert s[..i + 1][..i] == s[..i];
      MachineCountsBraces(0, s[..i + 1]);
      if !inStr {
        if ch == '"' { inStr := true; }
        else if ch == '{' { depth := depth + 1; }
        else if ch == '}' {
          depth := depth - 1;
          if depth == 0 { return Some(s[..i + 1]); }
        }
        NoNewZero(s, i);
      } else {
        if ch == '"' && !esc { inStr := false; }
        esc := !esc && ch == '\\';
        NoNewZero(s, i);
      }
    }
    json := None;
    forall n: nat ensures !ShortestBalanced(s, n) {
      if 0 < n <= |s| { assert Net(s[..n]) != 0; }
    }
  }

  // Only a closing brace outside strings brings the count to zero.
  lemma NoNewZero(s: string, i: nat)
    requires i < |s| && s[0] == '{'
    requires forall m | 0 < m <= i :: Net(s[..m]) != 0
    requires var st := Run(OUTSIDE, s[..i]); st.inStr || s[i] != '}' || st.depth != 1
    ensures Net(s[..i + 1]) != 0
  {
    assert s[..i + 1][..i] == s[..i];
    MachineCountsBraces(0, s[..i + 1]);
    MachineCountsBraces(0, s[..i]);
    if i == 0 {
      assert s[..1] == ['{'] && s[..1][1..] == "";
    } else {
      PositiveBefore(s, i);
    }
  }

  lemma {:induction false} PositiveBefore(s: string, i: nat)
    requires 0 < i <= |s| && s[0] == '{'
    requires forall m | 0 < m <= i :: Net(s[..m]) != 0
    ensures Net(s[..i]) > 0
  {
    assert s[..i][..i - 1] == s[..i - 1];
    MachineCountsBraces(0, s[..i]);
    MachineCountsBraces(0, s[..i - 1]);
    if i == 1 {
      assert s[..1] == ['{'] && s[..1][1..] == "";
    } else {
      PositiveBefore(s, i - 1);
    }
  }

  // ------------------------------------------------------------ JSON texts

  // White space and literals are free of quotes and braces; everything RFC 8259
  // allows there (and more) fits.
  predicate Plain(s: string) { forall i | 0 <= i < |s| :: s[i] != '"' && s[i] != '{' && s[i] != '}' }

  // An unescaped character or a backslash escape; \uXXXX is an escape followed
  // by four unescaped digits.
  datatype StrChar = Unescaped(c: char) | Escape(c: char)

  datatype Value =
    | Literal(word: string)                       // true, false, null, a number
    | Text(chars: seq<StrChar>)
    | List(space: string, items: Items)
    | Object(space: string, members: Members)

  // Every element with the white space around it; `more` follows a comma.
  datatype Items = NoItems | Items(before: string, value: Value, after: string, more: Items)

  datatype Members =
    | NoMembers
    | Members(before: string, name: seq<StrChar>, colon: string, value: Value, after: string, more: Members)

  predicate ValidChars(chars: seq<StrChar>) {
    forall i | 0 <= i < |chars| :: chars[i].Unescaped? ==> chars[i].c != '"' && chars[i].c != '\\'
  }

  predicate ValidValue(v: Value) {
    match v
    case Literal(word) => Plain(word)
    case Text(chars) => ValidChars(chars)
    case List(space, items) => Plain(space) && ValidItems(items)
    case Object(space, members) => Plain(space) && ValidMembers(members)
  }

  predicate ValidItems(items: Items) {
    match items
    case NoItems => true
    case Items(before, value, after, more) => Plain(before) && ValidValue(value) && Plain(after) && ValidItems(more)
  }

  predicate ValidMembers(members: Members) {
    match members
    case NoMembers => true
    case Members(before, name, colon, value, after, more) =>
      Plain(before) && ValidChars(name) && Plain(colon) && ValidValue(value) && Plain(after) && ValidMembers(more)
  }

  function Body(chars: seq<StrChar>): string {
    if chars == [] then "" else
    var last := chars[|chars| - 1];
    Body(chars[..|chars| - 1]) + if last.Escape? then ['\\', last.c] else [last.c]
  }

  function Quoted(chars: seq<StrChar>): string { "\"" + Body(chars) + "\"" }

  function Render(v: Value): string {
    match v
    case Literal(word) => word
    case Text(chars) => Quoted(chars)
    case List(space, items) => "[" + (space + RenderItems(items)) + "]"
    case Object(space, members) => "{" + (space + RenderMembers(members)) + "}"
  }

  function RenderItems(items: Items): string {
    match items
    case NoItems => ""
    case Items(before, value, after, more) =>
      before + Render(value) + after + if more.NoItems? then "" else "," + RenderItems(more)
  }

  // `colon` is the name separator with the white space around it.
  function RenderMembers(members: Members): string {
    match members
    case NoMembers => ""
    case Members(before, name, colon, value, after, more) =>
      before + Quoted(name) + colon + Render(value) + after
      + if more.NoMembers? then "" else "," + RenderMembers(more)
  }

  // ------------------------------------------------------------ neutral texts

  // Ends where it started, outside strings, and never below.
  ghost predicate Neutral(p: string) {
    Run(OUTSIDE, p) == OUTSIDE && forall m | 0 <= m <= |p| :: Run(OUTSIDE, p[..m]).depth >= 0
  }

  lemma {:induction false} Deeper(st: Scan, p: string)
    ensures var r := Run(st, p); Run(st.(depth := st.depth + 1), p) == r.(depth := r.depth + 1)
  {
    if p != "" { Deeper(st, p[..|p| - 1]); }
  }

  lemma NeutralConcat(a: string, b: string)
    requires Neutral(a) && Neutral(b)
    ensures Neutral(a + b)
  {
    RunConcat(OUTSIDE, a, b);
    forall m | 0 <= m <= |a + b| ensures Run(OUTSIDE, (a + b)[..m]).depth >= 0 {
      if m <= |a| {
        assert (a + b)[..m] == a[..m];
      } else {
        assert (a + b)[..m] == a + b[..m - |a|];
        RunConcat(OUTSIDE, a, b[..m - |a|]);
      }
    }
  }

  lemma {:induction false} NeutralPlain(p: string)
    requires Plain(p)
    ensures Neutral(p)
  {
    if p == "" {
      assert p[..0] == "";
    } else {
      var n := |p| - 1;
      NeutralPlain(p[..n]);
      forall m | 0 <= m <= |p| ensures Run(OUTSIDE, p[..m]).depth >= 0 {
        assert m <= n ==> p[..m] == p[..n][..m];
        assert m > n ==> p[..m] == p;
      }
    }
  }

  // Inside braces nothing shorter than the whole balances.
  lemma BracesHold(a: string, m: nat)
    requires Neutral(a)
    ensures var p := "{" + a + "}";
            && (m == |p| ==> Run(OUTSIDE, p) == OUTSIDE)
            && (0 < m < |p| ==> Run(OUTSIDE, p[..m]).depth > 0)
  {
    var p := "{" + a + "}";
    var open := Scan(1, false, false);
    if m == |p| {
      RunConcat(OUTSIDE, "{" + a, "}");
      RunFirst(OUTSIDE, "{" + a);
      assert ("{" + a)[1..] == a;
      Deeper(OUTSIDE, a);
      RunOne(open, '}');
    } else if 0 < m < |p| {
      assert p[..m] == "{" + a[..m - 1];
      RunFirst(OUTSIDE, p[..m]);
      assert p[..m][1..] == a[..m - 1];
      Deeper(OUTSIDE, a[..m - 1]);
    }
  }

  lemma NeutralBraces(a: string)
    requires Neutral(a)
    ensures Neutral("{" + a + "}")
  {
    var p := "{" + a + "}";
    BracesHold(a, |p|);
    forall m | 0 <= m <= |p| ensures Run(OUTSIDE, p[..m]).depth >= 0 {
      BracesHold(a, m);
      assert p[..|p|] == p;
    }
  }

  // The machine stays in the string as long as only its body is read.
  lemma {:induction false} BodyStaysInside(chars: seq<StrChar>, m: nat)
    requires ValidChars(chars) && m <= |Body(chars)|
    ensures Run(Scan(0, true, false), Body(chars)) == Scan(0, true, false)
    ensures Run(Scan(0, true, false), Body(chars)[..m]).depth == 0
  {
    var st := Scan(0, true, false);
    if chars == [] {
      assert Body(chars)[..m] == "";
    } else {
      var front, last := Body(chars[..|chars| - 1]), chars[|chars| - 1];
      var unit := if last.Escape? then ['\\', last.c] else [last.c];
      BodyStaysInside(chars[..|chars| - 1], if m <= |front| then m else 0);
      RunConcat(st, front, unit);
      RunUnit(last);
      if m <= |front| {
        assert Body(chars)[..m] == front[..m];
      } else {
        assert Body(chars)[..m] == front + unit[..m - |front|];
        RunConcat(st, front, unit[..m - |front|]);
      }
    }
  }

  lemma RunUnit(c: StrChar)
    requires ValidChars([c])
    ensures var st, unit := Scan(0, true, false), if c.Escape? then ['\\', c.c] else [c.c];
            && Run(st, unit) == st
            && forall k | 0 <= k <= |unit| :: Run(st, unit[..k]).depth == 0
  {
    var st, unit := Scan(0, true, false), if c.Escape? then ['\\', c.c] else [c.c];
    assert [c][0] == c;
    assert unit[..0] == "" && unit[..1] == [unit[0]] && unit[..|unit|] == unit;
    RunOne(st, unit[0]);
  }

  lemma NeutralQuoted(chars: seq<StrChar>)
    requires ValidChars(chars)
    ensures Neutral(Quoted(chars))
  {
    var p, inside := Quoted(chars), Scan(0, true, false);
    BodyStaysInside(chars, 0);
    RunConcat(OUTSIDE, "\"" + Body(chars), "\"");
    RunFirst(OUTSIDE, "\"" + Body(chars));
    assert ("\"" + Body(chars))[1..] == Body(chars);
    RunOne(inside, '"');
    forall m | 0 <= m <= |p| ensures Run(OUTSIDE, p[..m]).depth >= 0 {
      if m == |p| {
        assert p[..m] == p;
      } else if m > 0 {
        BodyStaysInside(chars, m - 1);
        assert p[..m] == "\"" + Body(chars)[..m - 1];
        RunFirst(OUTSIDE, p[..m]);
        assert p[..m][1..] == Body(chars)[..m - 1];
      }
    }
  }

  lemma {:induction false} NeutralValue(v: Value)
    requires ValidValue(v)
    ensures Neutral(Render(v))
  {
    match v
    case Literal(word) => NeutralPlain(word);
    case Text(chars) => NeutralQuoted(chars);
    case List(space, items) =>
      NeutralItems(items);
      NeutralPlain(space);
      NeutralPlain("[");
      NeutralPlain("]");
      NeutralConcat(space, RenderItems(items));
      NeutralConcat("[", space + RenderItems(items));
      NeutralConcat("[" + (space + RenderItems(items)), "]");
    case Object(space, members) =>
      NeutralMembers(members);
      NeutralPlain(space);
      NeutralConcat(space, RenderMembers(members));
      NeutralBraces(space + RenderMembers(members));
  }

  lemma {:induction false} NeutralItems(items: Items)
    requires ValidItems(items)
    ensures Neutral(RenderItems(items))
  {
    match items
    case NoItems => NeutralPlain("");
    case Items(before, value, after, more) =>
      NeutralPlain(before);
      NeutralValue(value);
      NeutralPlain(after);
      NeutralConcat(before, Render(value));
      NeutralConcat(before + Render(value), after);
      NeutralItems(more);
      NeutralTail(before + Render(value) + after, RenderItems(more));
  }

  lemma {:induction false} NeutralMembers(members: Members)
    requires ValidMembers(members)
    ensures Neutral(RenderMembers(members))
  {
    match members
    case NoMembers => NeutralPlain("");
    case Members(before, name, colon, value, after, more) =>
      NeutralPlain(before);
      NeutralQuoted(name);
      NeutralPlain(colon);
      NeutralValue(value);
      NeutralPlain(after);
      NeutralConcat(before, Quoted(name));
      NeutralConcat(before + Quoted(name), colon);
      NeutralConcat(before + Quoted(name) + colon, Render(value));
      NeutralConcat(before + Quoted(name) + colon + Render(value), after);
      NeutralMembers(more);
      NeutralTail(before + Quoted(name) + colon + Render(value) + after, RenderMembers(more));
  }

  lemma NeutralTail(first: string, rest: string)
    requires Neutral(first) && Neutral(rest)
    ensures Neutral(first + "") && Neutral(first + ("," + rest))
  {
    NeutralPlain("");
    NeutralPlain(",");
    NeutralConcat(first, "");
    NeutralConcat(",", rest);
    NeutralConcat(first, "," + rest);
  }

  /** An object text in front of anything is exactly its shortest balanced prefix. */
  lemma ObjectIsShortestBalanced(space: string, members: Members, tail: string)
    requires ValidValue(Object(space, members))
    ensures var text := Render(Object(space, members));
            (text + tail)[0] == '{' && ShortestBalanced(text + tail, |text|)
  {
    var inner := space + RenderMembers(members);
    var text := Render(Object(space, members));
    NeutralMembers(members);
    NeutralPlain(space);
    NeutralConcat(space, RenderMembers(members));
    assert text == "{" + inner + "}";
    assert (text + tail)[..|text|] == text;
    BracesHold(inner, |text|);
    MachineCountsBraces(0, text);
    forall m | 0 < m < |text| ensures Net((text + tail)[..m]) != 0 {
      assert (text + tail)[..m] == text[..m];
      BracesHold(inner, m);
      MachineCountsBraces(0, text[..m]);
    }
  }

  /** The scanner takes exactly the object and leaves the tail alone. */
  method ExtractObject(space: string, members: Members, tail: string) returns (json: Option<string>)
    requires ValidValue(Object(space, members))
    ensures json == Some(Render(Object(space, members)))
  {
    var text := Render(Object(space, members));
    ObjectIsShortestBalanced(space, members, tail);
    json := ExtractBalancedJson(text + tail);
    var all := text + tail;
    assert ShortestBalanced(all, |text|) && json.Some?;
    OnlyOneShortest(all, |text|, |json.value|);
    assert json.value == all[..|text|] == text;
  }

  lemma OnlyOneShortest(s: string, n: nat, m: nat)
    requires ShortestBalanced(s, n) && ShortestBalanced(s, m)
    ensures n == m
  {
  }
}
