/** The exporter's transformation of one scraped body: which lines are counters, and the
    memory that makes them survive upstream restarts. */
module Exporter {
  import opened Decimal
  import opened Counter
  import opened Exposition

  // ---------------------------------------------------------------------
  // Memory

  /** `_baseline` and `_last_raw`. */
  datatype Memory = Memory(baseline: map<string, real>, lastRaw: map<string, real>)

  const BLANK := Memory(map[], map[])

  function Get(m: map<string, real>, k: string): real { if k in m then m[k] else 0.0 }

  function CellAt(m: Memory, k: string): Cell {
    Cell(Get(m.baseline, k), if k in m.lastRaw then Some(m.lastRaw[k]) else None)
  }

  function Observe(m: Memory, k: string, raw: real): (r: Memory) {
    Memory(if k in m.lastRaw && raw < m.lastRaw[k] then m.baseline[k := Get(m.baseline, k) + m.lastRaw[k]]
           else m.baseline,
           m.lastRaw[k := raw])
  }

  /** Each series lives in its own cell, and observing it is one step of that cell. */
  lemma ObserveIsStep(m: Memory, k: string, raw: real, j: string)
    ensures CellAt(Observe(m, k, raw), j) == if j == k then Step(CellAt(m, k), raw) else CellAt(m, j)
  {}

  // ---------------------------------------------------------------------
  // Lines

  const HIST := "smolllm_attempt_first" + "_output_seconds"
  const ATTEMPTS := "smolllm_attempts_total"
  const HIST_TYPE := "# TYPE " + HIST + " histogram"
  const ATTEMPTS_TYPE := "# TYPE " + ATTEMPTS + " counter"

  datatype Kind = AttemptCounter | HistBucket | HistSum | HistCount

  function Head(kind: Kind): string {
    match kind
    case AttemptCounter => ATTEMPTS + "{"
    case HistBucket => HIST + "_bucket{"
    case HistSum => HIST + "_sum{"
    case HistCount => HIST + "_count{"
  }

  function SeriesKey(kind: Kind, labels: string): string {
    match kind
    case AttemptCounter => "attempt|" + labels
    case HistBucket => "hist|" + (HIST + "{" + labels + "}") + "|" + labels
    case HistSum => "sum|" + (HIST + "{" + labels + "}")
    case HistCount => "count|" + (HIST + "{" + labels + "}")
  }

  lemma EndsAlike(p: string, a: string, q: string, b: string)
    requires p + a == q + b && |a| == |b|
    ensures a == b
  {
    assert a == (p + a)[|p|..] && b == (q + b)[|q|..];
  }

  /** No two series share a memory key, whatever their labels contain. */
  lemma SeriesKeysInjective(k1: Kind, l1: string, k2: Kind, l2: string)
    ensures SeriesKey(k1, l1) == SeriesKey(k2, l2) <==> k1 == k2 && l1 == l2
  {
    var a, b := SeriesKey(k1, l1), SeriesKey(k2, l2);
    if a == b {
      assert a[0] == b[0];
      assert k1 == k2;
      match k1
      case AttemptCounter => EndsAlike("attempt|", l1, "attempt|", l2);
      case HistBucket =>
        assert |l1| == |l2|;
        EndsAlike("hist|" + (HIST + "{" + l1 + "}") + "|", l1, "hist|" + (HIST + "{" + l2 + "}") + "|", l2);
      case HistSum => BlockAlike("sum|", l1, l2);
      case HistCount => BlockAlike("count|", l1, l2);
    }
  }

  lemma BlockAlike(p: string, l1: string, l2: string)
    requires p + (HIST + "{" + l1 + "}") == p + (HIST + "{" + l2 + "}")
    ensures l1 == l2
  {
    EndsAlike(p, HIST + "{" + l1 + "}", p, HIST + "{" + l2 + "}") by {
      assert |p + (HIST + "{" + l1 + "}")| == |p + (HIST + "{" + l2 + "}")|;
    }
    assert HIST + "{" + l1 + "}" == (HIST + "{") + (l1 + "}");
    assert HIST + "{" + l2 + "}" == (HIST + "{") + (l2 + "}");
    EndsAlike(HIST + "{", l1 + "}", HIST + "{", l2 + "}");
    assert l1 == (l1 + "}")[..|l1|] && l2 == (l2 + "}")[..|l2|];
  }

  datatype Reading = Comment | Sample(kind: Kind, labels: string, raw: real) | Other

  function ReadAs(kind: Kind, line: string): Option<Reading> {
    match MatchLine(Head(kind), line)
    case NoMatch => None
    case Match(labels, number) => if IsNumber(number) then Some(Sample(kind, labels, NumberValue(number))) else None
  }

  /** The order in which the line loop tries its cases. */
  const CASES: seq<Kind> := [AttemptCounter, HistBucket, HistSum, HistCount]

  function Read(line: string): Reading { if "#" <= line then Comment else FirstReading(CASES, line) }

  function FirstReading(kinds: seq<Kind>, line: string): Reading {
    if kinds == [] then Other else
      match ReadAs(kinds[0], line)
      case Some(r) => r
      case None => FirstReading(kinds[1..], line)
  }

  /** Where at most one pattern can match, the order of the cases does not matter. */
  lemma {:induction false} OnlyReading(kinds: seq<Kind>, kind: Kind, line: string)
    requires forall other :: other in kinds && other != kind ==> ReadAs(other, line) == None
    ensures FirstReading(kinds, line) ==
            if kind in kinds && ReadAs(kind, line).Some? then ReadAs(kind, line).value else Other
  {
    if kinds == [] {
    } else {
      OnlyReading(kinds[1..], kind, line);
    }
  }

  /** Lines of other families: none of them is read as a sample. */
  predicate NotSamples(lines: seq<string>) { forall i :: 0 <= i < |lines| ==> !Read(lines[i]).Sample? }

  predicate Contains(s: string, t: string) { t <= s || (s != "" && Contains(s[1..], t)) }

  /** One output line: copied text, or a served sample. */
  datatype Out = Text(text: string) | Served(kind: Kind, labels: string, value: real)

  function CommentOut(line: string): seq<Out> {
    if HIST_TYPE <= line then [Text(HIST_TYPE)]
    else if ATTEMPTS_TYPE <= line then [Text(line)]
    else if Contains(line, ATTEMPTS) then []
    else [Text(line)]
  }

  function Handle(m: Memory, line: string): (Memory, seq<Out>) {
    match Read(line)
    case Comment => (m, CommentOut(line))
    case Sample(kind, labels, raw) =>
      var k := SeriesKey(kind, labels);
      var m' := Observe(m, k, raw);
      (m', [Served(kind, labels, CellAt(m', k).Served())])
    case Other => (m, [Text(line)])
  }

  function Transform(m: Memory, lines: seq<string>): (Memory, seq<Out>) {
    if lines == [] then (m, [])
    else
      var (m1, out) := Transform(m, lines[..|lines|-1]);
      var (m2, more) := Handle(m1, lines[|lines|-1]);
      (m2, out + more)
  }

  class ExporterMemory {
    var baseline: map<string, real>
    var lastRaw: map<string, real>

    function View(): Memory reads this { Memory(baseline, lastRaw) }

    constructor ()
      ensures View() == BLANK
    { baseline, lastRaw := map[], map[]; }

    method RestartSafeCounter(key: string, raw: real) returns (served: real)
      modifies this
      ensures View() == Observe(old(View()), key, raw)
      ensures served == CellAt(View(), key).Served()
    {
      if key in lastRaw && raw < lastRaw[key] {
        baseline := baseline[key := (if key in baseline then baseline[key] else 0.0) + lastRaw[key]];
      }
      lastRaw := lastRaw[key := raw];
      served := (if key in baseline then baseline[key] else 0.0) + raw;
    }

    /** `transform`, on the text of a body. */
    method TransformBody(body: string) returns (out: seq<Out>)
      modifies this
      ensures (View(), out) == Transform(old(View()), SplitLines(body))
    {
      var lines := SplitLines(body);
      out := [];
      var i := 0;
      while i < |lines|
        invariant 0 <= i <= |lines|
        invariant (View(), out) == Transform(old(View()), lines[..i])
      {
        TransformNext(old(View()), lines, i);
        var more := HandleLine(lines[i]);
        out := out + more;
        i := i + 1;
      }
      assert lines[..i] == lines;
    }

    /** One turn of the line loop. */
    method HandleLine(line: string) returns (out: seq<Out>)
      modifies this
      ensures (View(), out) == Handle(old(View()), line)
    {
      match Read(line) {
        case Comment => out := CommentOut(line);
        case Sample(kind, labels, raw) =>
          var value := RestartSafeCounter(SeriesKey(kind, labels), raw);
          out := [Served(kind, labels, value)];
        case Other => out := [Text(line)];
      }
    }
  }

  lemma TransformNext(m: Memory, lines: seq<string>, i: nat)
    requires i < |lines|
    ensures var (m1, out) := Transform(m, lines[..i]);
            var (m2, more) := Handle(m1, lines[i]);
            Transform(m, lines[..i + 1]) == (m2, out + more)
  {
    assert lines[..i + 1][..i] == lines[..i];
  }

  // ---------------------------------------------------------------------
  // The text that goes out.

  /** The printed form of a served number; `_fmt` prints whole numbers without a point. */
  type NumberText = real -> string

  ghost predicate PrintsWhole(fmt: NumberText) { forall n: nat :: fmt(n as real) == Digits(n) }

  function OutLine(o: Out, fmt: NumberText): string {
    match o
    case Text(t) => t
    case Served(kind, labels, value) => SampleLine(Head(kind), labels, fmt(value))
  }

  function OutLines(out: seq<Out>, fmt: NumberText): (ls: seq<string>)
    ensures |ls| == |out| && forall i :: 0 <= i < |out| ==> ls[i] == OutLine(out[i], fmt)
  {
    seq(|out|, i requires 0 <= i < |out| => OutLine(out[i], fmt))
  }

  /** Lines joined by newlines, and a final newline even after no line at all. */
  function OutText(out: seq<Out>, fmt: NumberText): string {
    if out == [] then "\n" else Join(OutLines(out, fmt))
  }

  /** `transform` in full: the text of a body to the text that is served. */
  method TransformText(m: ExporterMemory, body: string, fmt: NumberText) returns (text: string)
    modifies m
    ensures var (next, out) := Transform(old(m.View()), SplitLines(body)); m.View() == next && text == OutText(out, fmt)
  {
    var out := m.TransformBody(body);
    if out == [] { return "\n"; }
    text := JoinLines(OutLines(out, fmt));
  }

  method JoinLines(ls: seq<string>) returns (text: string)
    ensures text == Join(ls)
  {
    text := "";
    for i := 0 to |ls|
      invariant text == Join(ls[..i])
    {
      JoinAppend(ls[..i], ls[i]);
      assert ls[..i + 1] == ls[..i] + [ls[i]];
      text := text + (ls[i] + "\n");
    }
    assert ls[..|ls|] == ls;
  }

  // ---------------------------------------------------------------------
  // What a body says about one series, and what is served for it.

  function RawsOf(lines: seq<string>, k: string): seq<real> {
    if lines == [] then []
    else
      var r := Read(lines[|lines|-1]);
      if r.Sample? && SeriesKey(r.kind, r.labels) == k then RawsOf(lines[..|lines|-1], k) + [r.raw]
      else RawsOf(lines[..|lines|-1], k)
  }

  function ValuesOf(out: seq<Out>, k: string): seq<real> {
    if out == [] then []
    else
      var o := out[|out|-1];
      if o.Served? && SeriesKey(o.kind, o.labels) == k then ValuesOf(out[..|out|-1], k) + [o.value]
      else ValuesOf(out[..|out|-1], k)
  }

  function ServedAlong(c: Cell, raws: seq<real>): seq<real> {
    if raws == [] then [] else ServedAlong(c, raws[..|raws|-1]) + [Run(c, raws).Served()]
  }

  lemma {:induction false} ValuesAppend(a: seq<Out>, b: seq<Out>, k: string)
    requires |b| <= 1
    ensures ValuesOf(a + b, k) ==
            if |b| == 1 && b[0].Served? && SeriesKey(b[0].kind, b[0].labels) == k then ValuesOf(a, k) + [b[0].value]
            else ValuesOf(a, k)
  {
    if b == [] { assert a + b == a; } else { assert (a + b)[..|a|] == a; }
  }

  /** What one line says about one series. */
  function RawOf(line: string, k: string): seq<real> {
    var r := Read(line);
    if r.Sample? && SeriesKey(r.kind, r.labels) == k then [r.raw] else []
  }

  function After(c: Cell, raws: seq<real>): Cell { if raws == [] then c else Step(c, raws[0]) }

  lemma HandleServes(m: Memory, line: string, k: string)
    ensures var (next, out) := Handle(m, line);
            var c, raw := CellAt(m, k), RawOf(line, k);
            && CellAt(next, k) == After(c, raw) && |out| <= 1
            && ValuesOf(out, k) == if raw == [] then [] else [Step(c, raw[0]).Served()]
  {
    var r := Read(line);
    if r.Sample? { ObserveIsStep(m, SeriesKey(r.kind, r.labels), r.raw, k); }
  }

  lemma RunAppend(c: Cell, raws: seq<real>, raw: seq<real>)
    requires |raw| <= 1
    ensures Run(c, raws + raw) == After(Run(c, raws), raw)
    ensures ServedAlong(c, raws + raw)
            == ServedAlong(c, raws) + if raw == [] then [] else [Step(Run(c, raws), raw[0]).Served()]
  {
    if raw == [] { assert raws + raw == raws; } else { assert (raws + raw)[..|raws|] == raws; }
  }

  lemma RawsAppend(lines: seq<string>, k: string)
    requires lines != []
    ensures RawsOf(lines, k) == RawsOf(lines[..|lines|-1], k) + RawOf(lines[|lines|-1], k)
  {}

  lemma ValuesAdd(a: seq<Out>, b: seq<Out>, k: string)
    requires |b| <= 1
    ensures ValuesOf(a + b, k) == ValuesOf(a, k) + ValuesOf(b, k)
  {
    ValuesAppend(a, b, k);
    if |b| == 1 { assert b[..0] == []; }
  }

  /** Every series is served by its own restart-safe counter, run over the raw values the
      body lists for it, whatever else the body contains. */
  lemma {:induction false} TransformServesCells(m: Memory, lines: seq<string>, k: string)
    ensures CellAt(Transform(m, lines).0, k) == Run(CellAt(m, k), RawsOf(lines, k))
    ensures ValuesOf(Transform(m, lines).1, k) == ServedAlong(CellAt(m, k), RawsOf(lines, k))
  {
    if lines == [] {
    } else {
      var front, line := lines[..|lines|-1], lines[|lines|-1];
      TransformServesCells(m, front, k);
      var (m1, out) := Transform(m, front);
      HandleServes(m1, line, k);
      ValuesAdd(out, Handle(m1, line).1, k);
      RawsAppend(lines, k);
      RunAppend(CellAt(m, k), RawsOf(front, k), RawOf(line, k));
    }
  }

  // ---------------------------------------------------------------------
  // One scrape as a map from series to raw value.

  ghost predicate Lists(lines: seq<string>, body: map<string, real>) {
    forall k :: RawsOf(lines, k) == if k in body then [body[k]] else []
  }

  function BodyOf(lines: seq<string>): map<string, real> {
    if lines == [] then map[]
    else
      var r := Read(lines[|lines|-1]);
      if r.Sample? then BodyOf(lines[..|lines|-1])[SeriesKey(r.kind, r.labels) := r.raw] else BodyOf(lines[..|lines|-1])
  }

  lemma {:induction false} BodyOfKeepsLast(lines: seq<string>, k: string)
    ensures k in BodyOf(lines) <==> RawsOf(lines, k) != []
    ensures k in BodyOf(lines) ==> BodyOf(lines)[k] == RawsOf(lines, k)[|RawsOf(lines, k)| - 1]
  {
    if lines == [] {
    } else {
      BodyOfKeepsLast(lines[..|lines|-1], k);
    }
  }

  lemma ListedOnceIsAMap(lines: seq<string>)
    requires forall k :: |RawsOf(lines, k)| <= 1
    ensures Lists(lines, BodyOf(lines))
  {
    forall k ensures RawsOf(lines, k) == if k in BodyOf(lines) then [BodyOf(lines)[k]] else [] {
      BodyOfKeepsLast(lines, k);
    }
  }

  function ObserveAll(m: Memory, body: map<string, real>): (r: Memory) {
    Memory(m.baseline + (map k | k in body && k in m.lastRaw && body[k] < m.lastRaw[k] ::
                         Get(m.baseline, k) + m.lastRaw[k]),
           m.lastRaw + body)
  }

  lemma ObserveAllIsStep(m: Memory, body: map<string, real>, k: string)
    ensures CellAt(ObserveAll(m, body), k) == if k in body then Step(CellAt(m, k), body[k]) else CellAt(m, k)
  {}

  /** When every series is listed once, line by line is all at once: the cells are those of
      `ObserveAll`, and each listed series is served exactly its new cell's value. */
  lemma TransformIsObserveAll(m: Memory, lines: seq<string>, body: map<string, real>, k: string)
    requires Lists(lines, body)
    ensures CellAt(Transform(m, lines).0, k) == CellAt(ObserveAll(m, body), k)
    ensures ValuesOf(Transform(m, lines).1, k) == if k in body then [CellAt(ObserveAll(m, body), k).Served()] else []
  {
    TransformServesCells(m, lines, k);
    ObserveAllIsStep(m, body, k);
    if k in body {
      var raws := [body[k]];
      assert raws[..0] == [];
    }
  }
}
