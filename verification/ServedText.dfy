/** What the exporter makes of each line, in the terms of its patterns and prefixes, and of the
    headers on the server's page. */
module ServedText {
  import opened Decimal
  import opened Counter
  import opened Exposition
  import opened Exporter
  import opened Metrics
  import LedgerHistory
  import Ledger

  // ---------------------------------------------------------------------
  // Comments

  ghost predicate Mentions(line: string, name: string) { exists a, b :: line == a + name + b }

  lemma {:induction false} ContainsMeans(s: string, t: string)
    ensures Contains(s, t) <==> Mentions(s, t)
    decreases |s|
  {
    if t <= s { assert s == "" + t + s[|t|..]; }
    if s == "" {
    } else {
      ContainsMeans(s[1..], t);
      if a, b :| s[1..] == a + t + b { assert s == [s[0]] + a + t + b; }
      if a, b :| s == a + t + b && a != "" { assert s[1..] == a[1..] + t + b; }
    }
  }

  /** A comment leaves memory alone. The two TYPE lines go out, the histogram's cut to its fixed
      part; any other comment that mentions the attempt counter is dropped; the rest goes out as it is. */
  lemma CommentSays(m: Memory, line: string)
    requires "#" <= line
    ensures var histType := "# TYPE " + ("smolllm_attempt_first" + "_output_seconds") + " histogram";
            var attemptsType := "# TYPE " + "smolllm_attempts_total" + " counter";
            Handle(m, line)
            == (m, if histType <= line then [Text(histType)]
                   else if attemptsType <= line then [Text(line)]
                   else if Mentions(line, "smolllm_attempts_total") then []
                   else [Text(line)])
  {
    ContainsMeans(line, "smolllm_attempts_total");
  }

  // ---------------------------------------------------------------------
  // Samples

  function HeadText(kind: Kind): string {
    match kind
    case AttemptCounter => "smolllm_attempts_total" + "{"
    case HistBucket => "smolllm_attempt_first" + "_output_seconds" + "_bucket{"
    case HistSum => "smolllm_attempt_first" + "_output_seconds" + "_sum{"
    case HistCount => "smolllm_attempt_first" + "_output_seconds" + "_count{"
  }

  lemma HeadIsText(kind: Kind)
    ensures Head(kind) == HeadText(kind)
  {}

  predicate White(ws: string) {
    ws != "" && forall c :: c in ws ==> c in {' ', '\t', '\r', '\n', '\U{0B}', '\U{0C}'}
  }

  lemma WhiteIsSpaces(ws: string)
    ensures White(ws) <==> Spaces(ws)
  {
    assert forall i :: 0 <= i < |ws| ==> ws[i] in ws;
  }

  /** The line has the shape of a sample of this kind: what follows the labels is white space
      and a number. */
  ghost predicate Shaped(line: string, kind: Kind, labels: string, number: string) {
    exists ws :: White(ws) && IsNumber(number) && line == HeadText(kind) + (labels + "}" + (ws + number))
  }

  lemma ShapedIsRead(line: string, kind: Kind, labels: string, number: string)
    requires Shaped(line, kind, labels, number)
    ensures Read(line) == Sample(kind, labels, NumberValue(number))
  {
    HeadIsText(kind);
    var ws :| White(ws) && IsNumber(number) && line == HeadText(kind) + (labels + "}" + (ws + number));
    WhiteIsSpaces(ws);
    MatchIsTheOnlyReading(Head(kind), line, labels, number);
    ReadHead(kind, labels + "}" + (ws + number));
  }

  /** What a counter goes on from: its served value so far, less the last raw value if that has
      not been counted past. */
  function Resumed(c: Cell, raw: real): real {
    if c.last.Some? && raw < c.last.value then c.base + c.last.value + raw else c.base + raw
  }

  /** A sample moves its own counter and no other, and goes out with that counter's value. */
  lemma SampleSays(m: Memory, line: string, kind: Kind, labels: string, number: string)
    requires Shaped(line, kind, labels, number)
    ensures var (next, out) := Handle(m, line);
            var c, raw := CellAt(m, SeriesKey(kind, labels)), NumberValue(number);
            && out == [Served(kind, labels, Resumed(c, raw))]
            && CellAt(next, SeriesKey(kind, labels)) == Cell(Resumed(c, raw) - raw, Some(raw))
            && forall j :: j != SeriesKey(kind, labels) ==> CellAt(next, j) == CellAt(m, j)
  {
    ShapedIsRead(line, kind, labels, number);
    ObservedAt(m, SeriesKey(kind, labels), NumberValue(number));
  }

  lemma ObservedAt(m: Memory, k: string, raw: real)
    ensures var next := Observe(m, k, raw);
            && CellAt(next, k) == Cell(Resumed(CellAt(m, k), raw) - raw, Some(raw))
            && CellAt(next, k).Served() == Resumed(CellAt(m, k), raw)
            && forall j :: j != k ==> CellAt(next, j) == CellAt(m, j)
  {}

  /** And it is printed in the source's form, with a single space. */
  lemma ServedLineSays(kind: Kind, labels: string, value: real, fmt: NumberText)
    ensures OutLine(Served(kind, labels, value), fmt) == HeadText(kind) + (labels + "}" + (" " + fmt(value)))
  {
    HeadIsText(kind);
  }

  /** The served text: each line and a newline, and a newline alone when there is no line. */
  lemma ServedTextSays(out: seq<Out>, o: Out, t: string, fmt: NumberText)
    ensures OutText([], fmt) == "\n" && OutLine(Text(t), fmt) == t
    ensures OutText(out + [o], fmt) == (if out == [] then "" else OutText(out, fmt)) + (OutLine(o, fmt) + "\n")
  {
    JoinAppend(OutLines(out, fmt), OutLine(o, fmt));
    assert OutLines(out + [o], fmt) == OutLines(out, fmt) + [OutLine(o, fmt)];
    if out == [] { assert OutLines(out, fmt) == []; }
  }

  ghost predicate AnyShape(line: string) { exists kind, labels, number :: Shaped(line, kind, labels, number) }

  /** Every other line goes out as it came. */
  lemma OtherSays(m: Memory, line: string)
    requires !("#" <= line) && !AnyShape(line)
    ensures Handle(m, line) == (m, [Text(line)])
  {
    forall kind ensures ReadAs(kind, line) == None { MatchedIsShaped(line, kind); }
    OnlyReading(CASES, AttemptCounter, line);
  }

  lemma MatchedIsShaped(line: string, kind: Kind)
    ensures var m := MatchLine(Head(kind), line); m.Match? ==> Shaped(line, kind, m.labels, m.number)
  {
    HeadIsText(kind);
    var m := MatchLine(Head(kind), line);
    if m.Match? {
      MatchIsTheOnlyReading(Head(kind), line, m.labels, m.number);
      var ws :| Spaces(ws) && IsNumber(m.number) && line == Head(kind) + (m.labels + "}" + (ws + m.number));
      WhiteIsSpaces(ws);
    }
  }

  // ---------------------------------------------------------------------
  // Numbers

  /** Digits, and possibly a point and more digits. */
  ghost predicate DigitsAndPoint(t: string) {
    || (t != "" && AllDigits(t))
    || exists whole, frac :: whole != "" && frac != "" && AllDigits(whole) && AllDigits(frac) && t == whole + "." + frac
  }

  lemma NumberMeans(t: string)
    ensures IsNumber(t) <==> DigitsAndPoint(t)
  {
    var k := SpanDigits(t);
    if IsNumber(t) {
      if k == |t| { assert t == t[..k]; } else { assert t == t[..k] + "." + t[k + 1..]; }
    }
    if t != "" && AllDigits(t) {
      SpanOf(t, "");
      assert t + "" == t;
    } else if whole, frac :|
        whole != "" && frac != "" && AllDigits(whole) && AllDigits(frac) && t == whole + "." + frac {
      SpanOf(whole, "." + frac);
      assert t == whole + ("." + frac) && t[|whole| + 1..] == frac;
    }
  }

  /** A number is read as what it denotes. */
  lemma NumberValueMeans(n: Numeral)
    requires n.Valid() && !n.neg && n.exp.NoExp?
    ensures IsNumber(n.Text()) && NumberValue(n.Text()) == n.Value()
  {
    PlainValue(n);
    if n.frac.None? { WholeText(n); } else { PointText(n); }
  }

  lemma WholeText(n: Numeral)
    requires n.Valid() && !n.neg && n.exp.NoExp? && n.frac.None?
    ensures IsNumber(n.Text()) && NumberValue(n.Text()) == Over(n.Mantissa(), Pow10(n.Places()))
  {
    assert n.Text() == n.whole && n.whole + "" == n.whole;
    WholeNumber(n.whole);
    OverUnique(n.Mantissa() as real, n.Mantissa(), 1);
  }

  lemma PointText(n: Numeral)
    requires n.Valid() && !n.neg && n.exp.NoExp? && n.frac.Some?
    ensures IsNumber(n.Text()) && NumberValue(n.Text()) == Over(n.Mantissa(), Pow10(n.Places()))
  {
    assert n.Text() == n.whole + "." + n.frac.value;
    PointNumber(n.whole, n.frac.value);
  }

  lemma WholeNumber(whole: string)
    requires whole != "" && AllDigits(whole)
    ensures IsNumber(whole) && NumberValue(whole) == Val(whole) as real
  {
    SpanOf(whole, "");
    assert whole + "" == whole;
  }

  lemma PointNumber(whole: string, frac: string)
    requires whole != "" && AllDigits(whole) && frac != "" && AllDigits(frac) && AllDigits(whole + frac)
    ensures var t := whole + "." + frac;
            IsNumber(t) && NumberValue(t) == Over(Val(whole + frac), Pow10(|frac|))
  {
    var t := whole + "." + frac;
    SpanOf(whole, "." + frac);
    assert t == whole + ("." + frac) && t[|whole| + 1..] == frac && t[..|whole|] == whole;
  }

  // ---------------------------------------------------------------------
  // Whole bodies

  /** Taking in `a` and then `b` is taking in both, with the output of `a` first. */
  predicate JoinsAt(m: Memory, a: seq<string>, b: seq<string>) {
    var (m1, out) := Transform(m, a);
    var (m2, more) := Transform(m1, b);
    Transform(m, a + b) == (m2, out + more)
  }

  /** Lines are taken in one after the other, and their output follows in the same order. */
  lemma {:induction false} TransformConcat(m: Memory, a: seq<string>, b: seq<string>)
    ensures JoinsAt(m, a, b)
    decreases |b|
  {
    if b == [] {
      JoinsNothing(m, a);
    } else {
      TransformConcat(m, a, b[..|b|-1]);
      JoinsNext(m, a, b[..|b|-1], b[|b|-1]);
      assert b[..|b|-1] + [b[|b|-1]] == b;
    }
  }

  lemma {:induction false} JoinsNothing(m: Memory, a: seq<string>)
    ensures JoinsAt(m, a, [])
  {
    assert a + [] == a && Transform(m, a).1 + [] == Transform(m, a).1;
  }

  lemma {:induction false} JoinsNext(m: Memory, a: seq<string>, b: seq<string>, line: string)
    requires JoinsAt(m, a, b)
    ensures JoinsAt(m, a, b + [line])
  {
    var m1 := Transform(m, a).0;
    NextLine(m, a + b, line);
    NextLine(m1, b, line);
    assert a + b + [line] == a + (b + [line]);
    Regrouped(Transform(m, a).1, Transform(m1, b).1, Handle(Transform(m1, b).0, line).1);
  }

  lemma NextLine(m: Memory, lines: seq<string>, line: string)
    ensures var (m1, out) := Transform(m, lines);
            var (m2, more) := Handle(m1, line);
            Transform(m, lines + [line]) == (m2, out + more)
  {
    assert (lines + [line])[..|lines|] == lines;
  }

  lemma Regrouped(a: seq<Out>, b: seq<Out>, c: seq<Out>)
    ensures a + b + c == a + (b + c)
  {}

  lemma OneLineIsHandled(m: Memory, line: string)
    ensures Transform(m, []) == (m, []) && Transform(m, [line]) == Handle(m, line)
  {
    assert [line][..0] == [];
    assert [] + Handle(m, line).1 == Handle(m, line).1;
  }

  lemma TwoLines(m: Memory, x: string, y: string, a: seq<Out>, b: seq<Out>)
    requires Handle(m, x) == (m, a) && Handle(m, y) == (m, b)
    ensures Transform(m, [x, y]) == (m, a + b)
  {
    OneLineIsHandled(m, x);
    OneLineIsHandled(m, y);
    TransformConcat(m, [x], [y]);
    assert [x] + [y] == [x, y];
  }

  // ---------------------------------------------------------------------
  // The headers of the server's page

  /** Of the attempt header only the TYPE line goes out. */
  lemma AttemptHeaderServed(m: Memory)
    ensures Transform(m, ATTEMPT_HEADER) == (m, [Text("# TYPE " + "smolllm_attempts_total" + " counter")])
  {
    AttemptHelpDropped(m);
    AttemptTypeKept(m);
    TwoLines(m, ATTEMPT_HELP, ATTEMPT_TYPE, [], [Text(ATTEMPT_TYPE)]);
    assert [] + [Text(ATTEMPT_TYPE)] == [Text(ATTEMPT_TYPE)];
  }

  lemma AttemptHelpDropped(m: Memory)
    ensures Handle(m, ATTEMPT_HELP) == (m, [])
  {
    AttemptHeader();
    var a, b := "# HELP ", " Model call attempts" + " by outcome.";
    assert ATTEMPT_HELP == a + ATTEMPTS + b;
    assert ATTEMPT_HELP[2] == 'H' && HIST_TYPE[2] == 'T' && ATTEMPTS_TYPE[2] == 'T';
    MentionIsDropped(a, b);
  }

  lemma AttemptTypeKept(m: Memory)
    ensures Handle(m, ATTEMPT_TYPE) == (m, [Text(ATTEMPT_TYPE)])
    ensures ATTEMPT_TYPE == "# TYPE " + "smolllm_attempts_total" + " counter"
  {
    AttemptHeader();
    assert ATTEMPT_TYPE == ATTEMPTS_TYPE;
    assert ATTEMPT_TYPE[22] == 's' && HIST_TYPE[22] == '_';
  }

  lemma WaitTypeKept(m: Memory)
    ensures Handle(m, WAIT_TYPE) == (m, [Text(WAIT_TYPE)])
    ensures WAIT_TYPE == "# TYPE " + ("smolllm_attempt_first" + "_output_seconds") + " histogram"
  {
    WaitType();
    assert WAIT_TYPE == HIST_TYPE;
  }

  lemma CounterName()
    ensures |ATTEMPTS| > 16 && ATTEMPTS[7] == '_' && ATTEMPTS[16] == '_'
  {}

  /** A line without two underscores as far apart as in the counter's name does not mention it. */
  lemma {:induction false} NotContained(line: string, name: string)
    requires forall i :: 0 <= i < |line| - 9 && line[i] == '_' ==> line[i + 9] != '_'
    requires |name| > 16 && name[7] == '_' && name[16] == '_'
    ensures !Contains(line, name)
  {
    ContainsMeans(line, name);
    forall a, b ensures line != a + name + b { Inside(a, name, b); }
  }

  lemma Inside(a: string, name: string, b: string)
    ensures forall i :: 0 <= i < |name| ==> (a + name + b)[|a| + i] == name[i]
  {}

  lemma WaitHelpKept(m: Memory)
    ensures Handle(m, WAIT_HELP) == (m, [Text(WAIT_HELP)]) && Handle(m, WAIT_HELP_2) == (m, [Text(WAIT_HELP_2)])
  {
    WaitHelp();
    WaitHelp2();
    assert WAIT_HELP[2] == 'H' && WAIT_HELP_2[2] == 'o' && HIST_TYPE[2] == 'T' && ATTEMPTS_TYPE[2] == 'T';
    FirstHelpDoesNot();
    SecondHelpDoesNot();
  }

  lemma FirstHelpDoesNot()
    ensures !Contains(WAIT_HELP, ATTEMPTS)
  {
    var a, b, c := "# HELP smolllm_attempt_first_output", "_seconds Seconds from request", " start to the first";
    assert |a| == 35 && forall i :: 0 <= i < |a| && a[i] == '_' ==> i in {14, 22, 28};
    assert forall i :: 0 <= i < |b| && b[i] == '_' ==> i == 0;
    assert forall i :: 0 <= i < |c| ==> c[i] != '_';
    assert WAIT_HELP == a + b + c;
    UnderscoresJoin(a, b, c);
    CounterName();
    NotContained(WAIT_HELP, ATTEMPTS);
  }

  lemma UnderscoresJoin(a: string, b: string, c: string)
    requires |a| == 35 && forall i :: 0 <= i < |a| && a[i] == '_' ==> i in {14, 22, 28}
    requires forall i :: 0 <= i < |b| && b[i] == '_' ==> i == 0
    requires forall i :: 0 <= i < |c| ==> c[i] != '_'
    ensures var s := a + b + c; forall i :: 0 <= i < |s| - 9 && s[i] == '_' ==> s[i + 9] != '_'
  {
    var s := a + b + c;
    forall i | 0 <= i < |s| && s[i] == '_' ensures i in {14, 22, 28, 35} { CharAt(a, b, c, i); }
  }

  lemma CharAt(a: string, b: string, c: string, i: nat)
    requires i < |a| + |b| + |c|
    ensures (a + b + c)[i] == if i < |a| then a[i] else if i < |a| + |b| then b[i - |a|] else c[i - |a| - |b|]
  {}

  lemma SecondHelpDoesNot()
    ensures !Contains(WAIT_HELP_2, ATTEMPTS)
  {
    NoUnderscore("# output token of a successful", " attempt. Abandoned attempts", " are excluded:");
    CounterName();
    NotContained(WAIT_HELP_2, ATTEMPTS);
  }

  lemma NoUnderscore(a: string, b: string, c: string)
    requires '_' !in a && '_' !in b && '_' !in c
    ensures '_' !in a + b + c
  {}

  /** Of the wait header the two help lines that do not mention the attempt counter and the TYPE line go out. */
  lemma WaitHeaderServed(m: Memory)
    ensures Transform(m, WAIT_HEADER)
            == (m, [Text(WAIT_HELP), Text(WAIT_HELP_2),
                    Text("# TYPE " + ("smolllm_attempt_first" + "_output_seconds") + " histogram")])
  {
    WaitHelpKept(m);
    WaitHelpLosesALine();
    WaitTypeKept(m);
    ThirdOfFourDropped(m, WAIT_HELP, WAIT_HELP_2, WAIT_HELP_3, WAIT_TYPE);
  }

  lemma ThirdOfFourDropped(m: Memory, x: string, y: string, z: string, u: string)
    requires Handle(m, x) == (m, [Text(x)]) && Handle(m, y) == (m, [Text(y)])
    requires Handle(m, z) == (m, []) && Handle(m, u) == (m, [Text(u)])
    ensures Transform(m, [x, y, z, u]) == (m, [Text(x), Text(y), Text(u)])
  {
    TwoLines(m, x, y, [Text(x)], [Text(y)]);
    TwoLines(m, z, u, [], [Text(u)]);
    TransformConcat(m, [x, y], [z, u]);
    assert [x, y] + [z, u] == [x, y, z, u];
    assert [Text(x)] + [Text(y)] + ([] + [Text(u)]) == [Text(x), Text(y), Text(u)];
  }

  /** The server's page as it is served: the two headers, less the help lines for the attempt counter,
      around what the sample lines become, in the order of the page. */
  lemma PageServed(m: Memory, attempts: seq<(LedgerHistory.AttemptKey, nat)>, samples: seq<Ledger.Sample>,
                   fmt: FloatText, rest: seq<string>)
    requires Metrics.Shaped(samples)
    ensures var (m1, served) := Transform(m, AttemptLines(attempts));
            var (m2, waits) := Transform(m1, AllWaitLines(samples, fmt));
            var (m3, more) := Transform(m2, rest);
            var waitHeader := if |samples| > 0
                              then [Text(WAIT_HELP), Text(WAIT_HELP_2),
                                    Text("# TYPE " + ("smolllm_attempt_first" + "_output_seconds") + " histogram")]
                              else [];
            Transform(m, MetricsLines(attempts, samples, fmt) + rest)
            == (m3, [Text("# TYPE " + "smolllm_attempts_total" + " counter")] + served + waitHeader + waits + more)
  {
    var a, h, w := AttemptLines(attempts), if |samples| > 0 then WAIT_HEADER else [], AllWaitLines(samples, fmt);
    AttemptHeaderServed(m);
    var m1 := Transform(m, a).0;
    WaitHeaderServed(m1);
    OneLineIsHandled(m1, "");
    TransformConcat(m, ATTEMPT_HEADER, a);
    TransformConcat(m, ATTEMPT_HEADER + a, h);
    TransformConcat(m, ATTEMPT_HEADER + a + h, w);
    TransformConcat(m, ATTEMPT_HEADER + a + h + w, rest);
  }
}
