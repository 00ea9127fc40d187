/** Prometheus text: escaping, label blocks and the lines the server prints, and how
    the exporter's patterns read them back. */
module Exposition {
  import opened Decimal

  // ---------------------------------------------------------------------
  // Label values

  function EscapeChar(c: char): string {
    if c == '\\' then "\\\\" else if c == '"' then "\\\"" else if c == '\n' then "\\n" else [c]
  }

  /** Backslash, double quote and newline, escaped left to right in one pass. */
  function Replace(v: string): string {
    if v == "" then "" else EscapeChar(v[0]) + Replace(v[1..])
  }

  predicate Plain(v: string) { '\\' !in v && '"' !in v && '\n' !in v }

  /** `escapeLabel`, with its shortcut for values that need nothing. */
  function EscapeLabel(v: string): string { if Plain(v) then v else Replace(v) }

  lemma {:induction false} ReplacePlain(v: string)
    requires Plain(v)
    ensures Replace(v) == v
  {
    if v == "" {
    } else {
      assert v == [v[0]] + v[1..];
      assert v[0] in v && forall c :: c in v[1..] ==> c in v;
      ReplacePlain(v[1..]);
    }
  }

  lemma EscapeIsReplace(v: string)
    ensures EscapeLabel(v) == Replace(v)
  {
    if Plain(v) { ReplacePlain(v); }
  }

  lemma {:induction false} ReplaceConcat(a: string, b: string)
    ensures Replace(a + b) == Replace(a) + Replace(b)
  {
    if a == "" {
      assert a + b == b;
    } else {
      assert (a + b)[1..] == a[1..] + b;
      ReplaceConcat(a[1..], b);
    }
  }

  /** Character by character: three characters get a backslash in front, newline as a letter,
      and every other one stays. */
  lemma EscapedByChar(a: string, c: char, b: string)
    ensures EscapeLabel(a + b) == EscapeLabel(a) + EscapeLabel(b) && EscapeLabel("") == ""
    ensures EscapeLabel([c]) ==
            if c == '\\' then ['\\', '\\'] else if c == '"' then ['\\', '"'] else if c == '\n' then ['\\', 'n'] else [c]
  {
    EscapeIsReplace(a);
    EscapeIsReplace(b);
    EscapeIsReplace(a + b);
    EscapeIsReplace([c]);
    ReplaceConcat(a, b);
    assert Replace([c]) == EscapeChar(c) + Replace("");
  }

  /** name="value", with the value escaped. */
  function Named(name: string, value: string): string { name + "=\"" + EscapeLabel(value) + "\"" }

  /** A label block is its pairs in order, with commas between them. */
  lemma BlockSays(ls: seq<Label>)
    ensures Block([]) == ""
    ensures |ls| == 1 ==> Block(ls) == Named(ls[0].name, ls[0].value)
    ensures |ls| > 1 ==> Block(ls) == Named(ls[0].name, ls[0].value) + "," + Block(ls[1..])
  {}

  /** Reads an escaped value up to the closing quote: the value and what follows it. */
  function ReadValue(s: string): Option<(string, string)> {
    if s == "" then None
    else if s[0] == '"' then Some(("", s[1..]))
    else if s[0] == '\\' then
      if |s| < 2 then None else
        var c := if s[1] == 'n' then '\n' else s[1];
        var r := ReadValue(s[2..]);
        if r.None? then None else Some(([c] + r.value.0, r.value.1))
    else
      var r := ReadValue(s[1..]);
      if r.None? then None else Some(([s[0]] + r.value.0, r.value.1))
  }

  /** Unescaping undoes escaping for every string, whatever comes after the closing quote. */
  lemma {:induction false} ReadEscaped(v: string, rest: string)
    ensures ReadValue(EscapeLabel(v) + "\"" + rest) == Some((v, rest))
  {
    if Plain(v) { ReplacePlain(v); }
    ReadReplaced(v, rest);
  }

  lemma {:induction false} ReadReplaced(v: string, rest: string)
    ensures ReadValue(Replace(v) + "\"" + rest) == Some((v, rest))
  {
    var t := Replace(v) + "\"" + rest;
    if v == "" {
      assert t == "\"" + rest && t[1..] == rest;
    } else {
      ReadReplaced(v[1..], rest);
      var u := Replace(v[1..]) + "\"" + rest;
      assert t == EscapeChar(v[0]) + u;
      ReadChar(v[0], u);
      assert v == [v[0]] + v[1..];
    }
  }

  lemma ReadChar(c: char, u: string)
    ensures ReadValue(EscapeChar(c) + u) == match ReadValue(u) case None => None case Some(r) => Some(([c] + r.0, r.1))
  {
    var e, t := EscapeChar(c), EscapeChar(c) + u;
    assert t[|e|..] == u && t[0] == e[0] && (|e| == 2 ==> t[1] == e[1]);
  }

  // ---------------------------------------------------------------------
  // Label blocks

  datatype Label = Label(name: string, value: string)

  predicate GoodName(n: string) { n != "" && forall i :: 0 <= i < |n| ==> n[i] != '=' && n[i] != ',' }

  predicate GoodNames(ls: seq<Label>) { forall i :: 0 <= i < |ls| ==> GoodName(ls[i].name) }

  function Pair(l: Label): string { l.name + "=\"" + EscapeLabel(l.value) + "\"" }

  /** name="value" pairs joined by commas. */
  function Block(ls: seq<Label>): string {
    if ls == [] then "" else if |ls| == 1 then Pair(ls[0]) else Pair(ls[0]) + "," + Block(ls[1..])
  }

  function Find(s: string, c: char): (i: nat)
    ensures i <= |s| && (i < |s| ==> s[i] == c) && forall k :: 0 <= k < i ==> s[k] != c
  {
    if s == "" || s[0] == c then 0 else 1 + Find(s[1..], c)
  }

  function ParseBlock(s: string): (r: Option<seq<Label>>)
    decreases |s|
  {
    if s == "" then Some([]) else
      var i := Find(s, '=');
      if i + 1 >= |s| || s[i + 1] != '"' then None else
        var v := ReadValue(s[i + 2..]);
        if v.None? then None else
          var l, rest := Label(s[..i], v.value.0), v.value.1;
          if rest == "" then Some([l])
          else if rest[0] != ',' || |rest| >= |s| then None
          else
            var tail := ParseBlock(rest[1..]);
            if tail.None? then None else Some([l] + tail.value)
  }

  lemma FindName(n: string, rest: string)
    requires GoodName(n)
    ensures Find(n + "=" + rest, '=') == |n|
  {
    var t := n + "=" + rest;
    assert t[|n|] == '=' && forall k :: 0 <= k < |n| ==> t[k] == n[k];
  }

  lemma ReadPair(l: Label, more: string)
    requires GoodName(l.name)
    ensures var s := Pair(l) + more;
            && Find(s, '=') == |l.name| && |s| > |l.name| + 1 && |more| < |s|
            && s[|l.name| + 1] == '"' && s[..|l.name|] == l.name
            && ReadValue(s[|l.name| + 2..]) == Some((l.value, more))
  {
    var value := EscapeLabel(l.value) + "\"" + more;
    PairFalls(l.name, EscapeLabel(l.value), more);
    FindName(l.name, "\"" + value);
    NameThenValue(l.name, value);
    ReadEscaped(l.value, more);
  }

  lemma PairFalls(name: string, value: string, more: string)
    ensures name + "=\"" + value + "\"" + more == name + "=" + ("\"" + (value + "\"" + more))
  {}

  lemma NameThenValue(name: string, value: string)
    ensures var s := name + "=" + ("\"" + value);
            && |s| == |name| + 2 + |value| && s[..|name|] == name
            && s[|name| + 1] == '"' && s[|name| + 2..] == value
  {}

  lemma ParseStep(l: Label, more: string)
    requires GoodName(l.name) && (more == "" || more[0] == ',')
    ensures ParseBlock(Pair(l) + more) ==
            if more == "" then Some([l])
            else match ParseBlock(more[1..]) case None => None case Some(tail) => Some([l] + tail)
  {
    ReadPair(l, more);
  }

  /** A label block parses back to its labels, so no two label lists share a block. */
  lemma {:induction false} ParseBlockBack(ls: seq<Label>)
    requires GoodNames(ls)
    ensures ParseBlock(Block(ls)) == Some(ls)
  {
    if |ls| == 1 {
      ParseStep(ls[0], "");
      assert Block(ls) == Pair(ls[0]) + "";
      assert ls == [ls[0]];
    } else if ls != [] {
      ParseBlockBack(ls[1..]);
      ParseMore(ls[0], ls[1..]);
      assert ls == [ls[0]] + ls[1..];
    }
  }

  lemma ParseMore(l: Label, rest: seq<Label>)
    requires GoodName(l.name) && rest != []
    ensures ParseBlock(Block([l] + rest))
            == match ParseBlock(Block(rest)) case None => None case Some(tail) => Some([l] + tail)
  {
    var more := "," + Block(rest);
    ParseStep(l, more);
    assert more[1..] == Block(rest);
    assert ([l] + rest)[1..] == rest;
    assert Block([l] + rest) == Pair(l) + more;
  }

  lemma BlocksInjective(a: seq<Label>, b: seq<Label>)
    requires GoodNames(a) && GoodNames(b) && Block(a) == Block(b)
    ensures a == b
  {
    ParseBlockBack(a);
    ParseBlockBack(b);
  }

  // ---------------------------------------------------------------------
  // A sample line: family and "{", label block, "}", white space, number.

  predicate IsSpace(c: char) { c == ' ' || c == '\t' || c == '\r' || c == '\n' || c == '\U{0B}' || c == '\U{0C}' }

  predicate IsNumber(t: string) {
    var k := SpanDigits(t);
    k > 0 && (k == |t| || (t[k] == '.' && t[k + 1..] != "" && AllDigits(t[k + 1..])))
  }

  function NumberValue(t: string): (x: real)
    requires IsNumber(t)
    ensures x >= 0.0
  {
    var k := SpanDigits(t);
    if k == |t| then Val(t) as real else Over(Val(t[..k] + t[k + 1..]), Pow10(|t| - k - 1))
  }

  function SpanSpaces(s: string): (n: nat)
    ensures n <= |s| && (forall i :: 0 <= i < n ==> IsSpace(s[i])) && (n < |s| ==> !IsSpace(s[n]))
  {
    if s == "" || !IsSpace(s[0]) then 0 else 1 + SpanSpaces(s[1..])
  }

  /** The number after a non-empty run of white space, if that is all there is. */
  function Tail(s: string): Option<string> {
    var n := SpanSpaces(s);
    if n > 0 && IsNumber(s[n..]) then Some(s[n..]) else None
  }

  function LastBrace(s: string): (i: int)
    ensures -1 <= i < |s| && (i >= 0 ==> s[i] == '}') && forall k :: i < k < |s| ==> s[k] != '}'
  {
    if s == "" then -1 else if s[|s|-1] == '}' then |s| - 1 else LastBrace(s[..|s|-1])
  }

  datatype Match = NoMatch | Match(labels: string, number: string)

  /** The exporter's anchored pattern  head(.*)}\s+(number)$ . */
  function MatchLine(head: string, line: string): Match {
    if !(head <= line) then NoMatch else
      var s := line[|head|..];
      var i := LastBrace(s);
      if i < 0 then NoMatch else
        var t := Tail(s[i + 1..]);
        if t.None? then NoMatch else Match(s[..i], t.value)
  }

  predicate Spaces(ws: string) { ws != "" && forall i :: 0 <= i < |ws| ==> IsSpace(ws[i]) }

  lemma NumberHasNoBrace(t: string)
    requires IsNumber(t)
    ensures forall i :: 0 <= i < |t| ==> t[i] != '}' && !IsSpace(t[i])
    ensures IsDigit(t[0])
  {
    var k := SpanDigits(t);
    assert forall i :: 0 <= i < k ==> t[i] == t[..k][i];
    assert forall i :: k < i < |t| ==> t[i] == t[k + 1..][i - k - 1];
  }

  lemma TailOf(ws: string, t: string)
    requires Spaces(ws) && IsNumber(t)
    ensures Tail(ws + t) == Some(t)
  {
    NumberHasNoBrace(t);
    var s := ws + t;
    var n := SpanSpaces(s);
    assert forall i :: 0 <= i < |ws| ==> s[i] == ws[i];
    assert s[|ws|] == t[0];
    assert n == |ws|;
    assert s[n..] == t;
  }

  lemma {:induction false} BraceBefore(labels: string, u: string)
    requires forall i :: 0 <= i < |u| ==> u[i] != '}'
    ensures LastBrace(labels + "}" + u) == |labels|
    decreases |u|
  {
    var s := labels + "}" + u;
    if u != "" {
      assert s[..|s|-1] == labels + "}" + u[..|u|-1];
      BraceBefore(labels, u[..|u|-1]);
    }
  }

  /** Braces and quotes in labels cannot confuse the greedy pattern: it matches a line exactly
      when the line has the sample shape, and there is only one way to read it. */
  lemma MatchIsTheOnlyReading(head: string, line: string, labels: string, number: string)
    ensures MatchLine(head, line) == Match(labels, number)
            <==> exists ws :: Spaces(ws) && IsNumber(number) && line == head + (labels + "}" + (ws + number))
  {
    if MatchLine(head, line) == Match(labels, number) { ShapeOfMatch(head, line); }
    if ws :| Spaces(ws) && IsNumber(number) && line == head + (labels + "}" + (ws + number)) {
      MatchShaped(head, labels, ws, number);
    }
  }

  lemma ShapeOfMatch(head: string, line: string)
    requires MatchLine(head, line).Match?
    ensures var m := MatchLine(head, line);
            exists ws :: Spaces(ws) && IsNumber(m.number) && line == head + (m.labels + "}" + (ws + m.number))
  {
    var m, s := MatchLine(head, line), line[|head|..];
    var ws := TailShape(s[LastBrace(s) + 1..]);
    BraceShape(s);
    Pieces(head, line, s, m.labels, ws + m.number);
  }

  lemma TailShape(u: string) returns (ws: string)
    requires Tail(u).Some?
    ensures Spaces(ws) && IsNumber(Tail(u).value) && u == ws + Tail(u).value
  {
    ws := u[..SpanSpaces(u)];
  }

  lemma BraceShape(s: string)
    requires LastBrace(s) >= 0
    ensures s == s[..LastBrace(s)] + "}" + s[LastBrace(s) + 1..]
  {}

  lemma Pieces(head: string, line: string, s: string, labels: string, u: string)
    requires head <= line && s == line[|head|..] && s == labels + "}" + u
    ensures line == head + (labels + "}" + u)
  {}

  lemma MatchShaped(head: string, labels: string, ws: string, number: string)
    requires Spaces(ws) && IsNumber(number)
    ensures MatchLine(head, head + (labels + "}" + (ws + number))) == Match(labels, number)
  {
    var s := labels + "}" + (ws + number);
    assert (head + s)[|head|..] == s;
    NumberHasNoBrace(number);
    BraceBefore(labels, ws + number);
    assert s[|labels| + 1..] == ws + number && s[..|labels|] == labels;
    TailOf(ws, number);
  }

  lemma DigitsAreANumber(n: nat)
    ensures IsNumber(Digits(n)) && NumberValue(Digits(n)) == n as real
  {
    SpanOf(Digits(n), "");
    assert Digits(n) + "" == Digits(n);
  }

  /** A printed sample: one space and a decimal count. */
  function SampleLine(head: string, labels: string, number: string): string { head + (labels + "}" + (" " + number)) }

  lemma PrintedCountReadsBack(head: string, labels: string, n: nat)
    ensures MatchLine(head, SampleLine(head, labels, Digits(n))) == Match(labels, Digits(n))
    ensures IsNumber(Digits(n)) && NumberValue(Digits(n)) == n as real
  {
    DigitsAreANumber(n);
    MatchShaped(head, labels, " ", Digits(n));
  }

  // ---------------------------------------------------------------------
  // Lines of a body

  /** The characters Python's `splitlines` splits at. */
  predicate IsBreak(c: char) {
    || c == '\n' || c == '\r' || c == '\U{0B}' || c == '\U{0C}' || c == '\U{1C}' || c == '\U{1D}'
    || c == '\U{1E}' || c == '\U{85}' || c == '\U{2028}' || c == '\U{2029}'
  }

  predicate OneLine(s: string) { forall i :: 0 <= i < |s| ==> !IsBreak(s[i]) }

  function Join(ls: seq<string>): string { if ls == [] then "" else ls[0] + "\n" + Join(ls[1..]) }

  function FirstBreak(s: string): (i: nat)
    ensures i <= |s| && OneLine(s[..i]) && (i < |s| ==> IsBreak(s[i]))
  {
    if s == "" || IsBreak(s[0]) then 0 else
      var i := 1 + FirstBreak(s[1..]);
      assert s[..i] == [s[0]] + s[1..][..i - 1];
      i
  }

  function SplitLines(s: string): (ls: seq<string>)
    ensures forall i :: 0 <= i < |ls| ==> OneLine(ls[i])
    decreases |s|
  {
    if s == "" then [] else
      var i := FirstBreak(s);
      if i == |s| then
        assert s[..i] == s;
        [s]
      else
        var skip := if s[i] == '\r' && i + 1 < |s| && s[i + 1] == '\n' then 2 else 1;
        [s[..i]] + SplitLines(s[i + skip..])
  }

  lemma {:induction false} FirstBreakOf(l: string, c: char, rest: string)
    requires OneLine(l) && IsBreak(c)
    ensures FirstBreak(l + [c] + rest) == |l|
  {
    var s := l + [c] + rest;
    if l != "" {
      assert s[1..] == l[1..] + [c] + rest;
      assert forall i :: 0 <= i < |l[1..]| ==> l[1..][i] == l[i + 1];
      FirstBreakOf(l[1..], c, rest);
    }
  }

  /** Python's line breaks: ten characters, and a carriage return with the newline after it as one;
      a break at the very end starts no further line. */
  lemma SplitSays(a: string, c: char, b: string)
    requires forall x :: x in a ==> x !in LINE_BREAKS
    ensures a != "" ==> SplitLines(a) == [a]
    ensures SplitLines("") == []
    ensures c in LINE_BREAKS && !(c == '\r' && "\n" <= b) ==> SplitLines(a + [c] + b) == [a] + SplitLines(b)
    ensures SplitLines(a + ['\r'] + ("\n" + b)) == [a] + SplitLines(b)
  {
    BreaksAre(a);
    if a != "" { LastLineSplit(a); }
    if c in LINE_BREAKS && !(c == '\r' && "\n" <= b) { BreakSplit(a, c, b); }
    ReturnSplit(a, b);
  }

  lemma {:induction false} LastLineSplit(a: string)
    requires OneLine(a) && a != ""
    ensures SplitLines(a) == [a]
  {
    NoBreakIn(a);
    assert a[..|a|] == a;
  }

  lemma {:induction false} NoBreakIn(a: string)
    requires OneLine(a)
    ensures FirstBreak(a) == |a|
  {
    if a == "" {
    } else {
      assert forall i :: 0 <= i < |a[1..]| ==> a[1..][i] == a[i + 1];
      NoBreakIn(a[1..]);
    }
  }

  lemma {:induction false} BreakSplit(a: string, c: char, b: string)
    requires OneLine(a) && IsBreak(c) && !(c == '\r' && "\n" <= b)
    ensures SplitLines(a + [c] + b) == [a] + SplitLines(b)
  {
    FirstBreakOf(a, c, b);
    var s := a + [c] + b;
    assert s[..|a|] == a && s[|a|] == c && s[|a| + 1..] == b;
    assert |a| + 1 < |s| ==> s[|a| + 1] == b[0];
  }

  lemma {:induction false} ReturnSplit(a: string, b: string)
    requires OneLine(a)
    ensures SplitLines(a + ['\r'] + ("\n" + b)) == [a] + SplitLines(b)
  {
    FirstBreakOf(a, '\r', "\n" + b);
    var s := a + ['\r'] + ("\n" + b);
    assert s[..|a|] == a && s[|a|] == '\r' && s[|a| + 1] == '\n' && s[|a| + 2..] == b;
  }

  const LINE_BREAKS: seq<char> :=
    ['\n', '\r', '\U{0B}', '\U{0C}', '\U{1C}', '\U{1D}', '\U{1E}', '\U{85}', '\U{2028}', '\U{2029}']

  lemma BreaksAre(a: string)
    ensures forall c :: IsBreak(c) <==> c in LINE_BREAKS
    ensures OneLine(a) <==> forall x :: x in a ==> x !in LINE_BREAKS
  {
    var bs := LINE_BREAKS;
    assert bs[0] == '\n' && bs[1] == '\r' && bs[2] == '\U{0B}' && bs[3] == '\U{0C}' && bs[4] == '\U{1C}';
    assert bs[5] == '\U{1D}' && bs[6] == '\U{1E}' && bs[7] == '\U{85}' && bs[8] == '\U{2028}' && bs[9] == '\U{2029}';
  }

  lemma {:induction false} SplitJoined(ls: seq<string>)
    requires forall i :: 0 <= i < |ls| ==> OneLine(ls[i])
    ensures SplitLines(Join(ls)) == ls
  {
    if ls == [] {
    } else {
      var s := Join(ls);
      FirstBreakOf(ls[0], '\n', Join(ls[1..]));
      assert s[..|ls[0]|] == ls[0] && s[|ls[0]| + 1..] == Join(ls[1..]);
      SplitJoined(ls[1..]);
      assert ls == [ls[0]] + ls[1..];
    }
  }

  /** The printed body splits back into the printed lines exactly when no line contains a break. */
  lemma SplitUndoesJoin(ls: seq<string>)
    ensures SplitLines(Join(ls)) == ls <==> forall i :: 0 <= i < |ls| ==> OneLine(ls[i])
  {
    if forall i :: 0 <= i < |ls| ==> OneLine(ls[i]) { SplitJoined(ls); }
  }

  predicate OneLineButNewline(v: string) { forall i :: 0 <= i < |v| ==> IsBreak(v[i]) ==> v[i] == '\n' }

  /** Escaping removes newlines and adds no other break. */
  lemma {:induction false} EscapedIsOneLine(v: string)
    ensures OneLine(EscapeLabel(v)) <==> OneLineButNewline(v)
  {
    if Plain(v) {
      ReplacePlain(v);
    }
    ReplacedIsOneLine(v);
  }

  lemma {:induction false} ReplacedIsOneLine(v: string)
    ensures OneLine(Replace(v)) <==> OneLineButNewline(v)
  {
    if v == "" {
    } else {
      ReplacedIsOneLine(v[1..]);
      var e, r := EscapeChar(v[0]), Replace(v[1..]);
      OneLineConcat(e, r);
      EscapedCharIsOneLine(v[0]);
      assert OneLineButNewline(v) <==> (IsBreak(v[0]) ==> v[0] == '\n') && OneLineButNewline(v[1..]) by {
        assert forall i :: 0 <= i < |v[1..]| ==> v[1..][i] == v[i + 1];
        assert v == [v[0]] + v[1..];
      }
    }
  }

  lemma EscapedCharIsOneLine(c: char)
    ensures OneLine(EscapeChar(c)) <==> (IsBreak(c) ==> c == '\n')
  {
    var e := EscapeChar(c);
    assert OneLine(e) <==> !IsBreak(e[0]) && (|e| == 2 ==> !IsBreak(e[1]));
  }

  lemma OneLineConcat(a: string, b: string)
    ensures OneLine(a + b) <==> OneLine(a) && OneLine(b)
  {
    assert forall i :: 0 <= i < |a| ==> (a + b)[i] == a[i];
    assert forall i :: 0 <= i < |b| ==> (a + b)[|a| + i] == b[i];
  }

  predicate Printable(s: string) { forall i :: 0 <= i < |s| ==> ' ' <= s[i] <= '~' }

  lemma PrintableIsOneLine(s: string)
    requires Printable(s)
    ensures OneLine(s)
  {}

  lemma CommentLine(a: string, b: string, c: string)
    requires Printable(a) && Printable(b) && Printable(c) && a != "" && a[0] == '#'
    ensures OneLine(a + b + c) && "#" <= a + b + c
  {
    PrintableIsOneLine(a);
    PrintableIsOneLine(b);
    PrintableIsOneLine(c);
    OneLineConcat(a + b, c);
    OneLineConcat(a, b);
    assert (a + b + c)[0] == a[0];
  }

  lemma {:induction false} JoinConcat(a: seq<string>, b: seq<string>)
    ensures Join(a + b) == Join(a) + Join(b)
  {
    if a == [] {
      assert a + b == b;
    } else {
      assert (a + b)[1..] == a[1..] + b;
      JoinConcat(a[1..], b);
    }
  }

  lemma JoinAppend(ls: seq<string>, l: string)
    ensures Join(ls + [l]) == Join(ls) + (l + "\n")
  {
    JoinConcat(ls, [l]);
    assert [l][1..] == [];
    assert Join([l]) == l + "\n" + Join([l][1..]);
  }

  lemma JoinThree(ls: seq<string>, x: string, y: string, z: string)
    ensures Join(ls + [x, y, z]) == Join(ls) + (x + "\n") + (y + "\n") + (z + "\n")
  {
    JoinAppend(ls, x);
    JoinAppend(ls + [x], y);
    JoinAppend(ls + [x] + [y], z);
    assert ls + [x, y, z] == ls + [x] + [y] + [z];
  }

  // ---------------------------------------------------------------------
  // Which printed lines stay one line.

  predicate SafeLabels(ls: seq<Label>) { forall i :: 0 <= i < |ls| ==> OneLineButNewline(ls[i].value) }

  lemma PairIsOneLine(l: Label)
    ensures OneLine(Pair(l)) <==> OneLine(l.name) && OneLineButNewline(l.value)
  {
    EscapedIsOneLine(l.value);
    OneLineConcat(l.name, "=\"");
    OneLineConcat(l.name + "=\"", EscapeLabel(l.value));
    OneLineConcat(l.name + "=\"" + EscapeLabel(l.value), "\"");
  }

  lemma {:induction false} BlockIsOneLine(ls: seq<Label>)
    requires forall i :: 0 <= i < |ls| ==> OneLine(ls[i].name)
    ensures OneLine(Block(ls)) <==> SafeLabels(ls)
  {
    if ls == [] {
    } else {
      PairIsOneLine(ls[0]);
      BlockIsOneLine(ls[1..]);
      BlockTail(ls);
      SafeTail(ls);
    }
  }

  lemma SafeTail(ls: seq<Label>)
    requires ls != []
    ensures SafeLabels(ls) <==> OneLineButNewline(ls[0].value) && SafeLabels(ls[1..])
  {
    assert ls == [ls[0]] + ls[1..];
  }

  lemma BlockTail(ls: seq<Label>)
    requires ls != []
    ensures OneLine(Block(ls)) <==> OneLine(Pair(ls[0])) && OneLine(Block(ls[1..]))
  {
    var head, tail := Pair(ls[0]), Block(ls[1..]);
    OneLineConcat(head, ",");
    OneLineConcat(head + ",", tail);
    assert |ls| == 1 ==> tail == "";
  }

  lemma WrappedIsOneLine(head: string, labels: string, number: string)
    ensures OneLine(SampleLine(head, labels, number)) <==> OneLine(head) && OneLine(labels) && OneLine(number)
  {
    OneLineConcat(head, labels + "}" + (" " + number));
    OneLineConcat(labels + "}", " " + number);
    OneLineConcat(labels, "}");
    OneLineConcat(" ", number);
  }

  lemma DigitsAreOneLine(n: nat)
    ensures OneLine(Digits(n))
  {}

  predicate AllOneLine(ls: seq<string>) { forall i :: 0 <= i < |ls| ==> OneLine(ls[i]) }

  lemma AllOneLineConcat(a: seq<string>, b: seq<string>)
    ensures AllOneLine(a + b) <==> AllOneLine(a) && AllOneLine(b)
  {
    assert forall i :: 0 <= i < |a| ==> (a + b)[i] == a[i];
    assert forall i :: 0 <= i < |b| ==> (a + b)[|a| + i] == b[i];
  }

  lemma ThreeMore(ls: seq<string>, x: string, y: string, z: string)
    ensures AllOneLine(ls + [x, y, z]) <==> AllOneLine(ls) && OneLine(x) && OneLine(y) && OneLine(z)
  {
    AllOneLineConcat(ls, [x, y, z]);
    assert [x, y, z][0] == x && [x, y, z][1] == y && [x, y, z][2] == z;
  }

  lemma OneMore(ls: seq<string>, l: string)
    ensures AllOneLine(ls + [l]) <==> AllOneLine(ls) && OneLine(l)
  {
    AllOneLineConcat(ls, [l]);
    assert [l][0] == l;
  }
}
