/** The server's exposition of the ledger, and what the exporter's patterns read in it. */
module Metrics {
  import opened Decimal
  import opened LedgerHistory
  import opened Exposition
  import Ledger
  import Exporter

  type FloatText = real -> string

  const BOUND_TEXT: seq<string> := ["0.5", "1", "2", "5", "10", "20", "30", "60", "120"]

  function BoolLabel(b: bool): string { if b then "true" else "false" }

  function AttemptLabels(k: AttemptKey): seq<Label> {
    [Label("alias", k.alias), Label("provider", k.provider), Label("model", k.model),
     Label("outcome", k.outcome), Label("phase", k.phase), Label("streaming", BoolLabel(k.streaming))]
  }

  function WaitLabels(k: WaitKey): seq<Label> {
    [Label("alias", k.alias), Label("provider", k.provider), Label("model", k.model),
     Label("streaming", BoolLabel(k.streaming))]
  }

  function Le(bound: string): string { ",le=\"" + bound + "\"" }

  function AttemptLine(k: AttemptKey, n: nat): string {
    SampleLine(Exporter.Head(Exporter.AttemptCounter), Block(AttemptLabels(k)), Digits(n))
  }

  function BucketLine(labels: string, bound: string, n: nat): string {
    SampleLine(Exporter.Head(Exporter.HistBucket), labels + Le(bound), Digits(n))
  }

  // Written in short pieces, which the verifier reads more readily than one long literal.
  const ATTEMPT_HELP := "# HELP smolllm_attempts_total" + " Model call attempts" + " by outcome."
  const WAIT_HELP := "# HELP smolllm_attempt_first_output" + "_seconds Seconds from request" + " start to the first"
  const WAIT_HELP_2 := "# output token of a successful" + " attempt. Abandoned attempts" + " are excluded:"
  const WAIT_HELP_3 := "# their wait is the budget," + " and belongs in" + " smolllm_attempts_total."
  const WAIT_TYPE := "# TYPE smolllm_attempt_first" + "_output_seconds" + " histogram"
  const ATTEMPT_TYPE := "# TYPE smolllm_attempts" + "_total" + " counter"

  const ATTEMPT_HEADER: seq<string> := [ATTEMPT_HELP, ATTEMPT_TYPE]
  const WAIT_HEADER: seq<string> := [WAIT_HELP, WAIT_HELP_2, WAIT_HELP_3, WAIT_TYPE]

  function AttemptLines(attempts: seq<(AttemptKey, nat)>): seq<string> {
    if attempts == [] then []
    else AttemptLines(attempts[..|attempts|-1]) + [AttemptLine(attempts[|attempts|-1].0, attempts[|attempts|-1].1)]
  }

  function BucketLines(labels: string, counts: seq<nat>, n: nat): seq<string>
    requires n <= |BOUND_TEXT| && n <= |counts|
  {
    if n == 0 then [] else BucketLines(labels, counts, n - 1) + [BucketLine(labels, BOUND_TEXT[n - 1], counts[n - 1])]
  }

  function HistLines(labels: string, counts: seq<nat>, sumText: string, n: nat): seq<string>
    requires |counts| == SLOTS
  {
    BucketLines(labels, counts, |BOUND_TEXT|)
    + [BucketLine(labels, "+Inf", counts[|counts| - 1]),
       SampleLine(Exporter.Head(Exporter.HistSum), labels, sumText),
       SampleLine(Exporter.Head(Exporter.HistCount), labels, Digits(n))]
  }

  function WaitLines(s: Ledger.Sample, fmt: FloatText): seq<string>
    requires |s.cumulative| == SLOTS
  {
    HistLines(Block(WaitLabels(s.key)), s.cumulative, fmt(s.sum), s.count)
  }

  predicate Shaped(samples: seq<Ledger.Sample>) { forall i :: 0 <= i < |samples| ==> |samples[i].cumulative| == SLOTS }

  function AllWaitLines(samples: seq<Ledger.Sample>, fmt: FloatText): seq<string>
    requires Shaped(samples)
  {
    if samples == [] then [] else AllWaitLines(samples[..|samples|-1], fmt) + WaitLines(samples[|samples|-1], fmt)
  }

  function MetricsLines(attempts: seq<(AttemptKey, nat)>, samples: seq<Ledger.Sample>, fmt: FloatText): seq<string>
    requires Shaped(samples)
  {
    ATTEMPT_HEADER + AttemptLines(attempts) + (if |samples| > 0 then WAIT_HEADER else []) + AllWaitLines(samples, fmt)
  }

  // Where each line of a page stands.

  lemma {:induction false} BucketLineAt(labels: string, counts: seq<nat>, n: nat, i: nat)
    requires i < n <= |BOUND_TEXT| && n <= |counts|
    ensures |BucketLines(labels, counts, n)| == n
            && BucketLines(labels, counts, n)[i] == BucketLine(labels, BOUND_TEXT[i], counts[i])
  {
    if n <= 1 {
    } else {
      BucketLineAt(labels, counts, n - 1, if i < n - 1 then i else 0);
    }
  }

  lemma {:induction false} OneLineEach(attempts: seq<(AttemptKey, nat)>)
    ensures |AttemptLines(attempts)| == |attempts|
  {
    if attempts == [] {
    } else {
      OneLineEach(attempts[..|attempts|-1]);
    }
  }

  lemma {:induction false} AttemptLineAt(attempts: seq<(AttemptKey, nat)>, j: nat)
    requires j < |attempts|
    ensures |AttemptLines(attempts)| == |attempts|
    ensures AttemptLines(attempts)[j] == AttemptLine(attempts[j].0, attempts[j].1)
  {
    var front := attempts[..|attempts|-1];
    OneLineEach(front);
    if j == |front| {
    } else {
      AttemptLineAt(front, j);
    }
  }

  lemma {:induction false} AllTwelve(samples: seq<Ledger.Sample>, fmt: FloatText)
    requires Shaped(samples)
    ensures |AllWaitLines(samples, fmt)| == 12 * |samples|
  {
    if samples == [] {
    } else {
      AllTwelve(samples[..|samples|-1], fmt);
      TwelveLines(samples[|samples|-1], fmt);
    }
  }

  lemma {:induction false} WaitLineOf(samples: seq<Ledger.Sample>, fmt: FloatText, i: nat, j: nat)
    requires Shaped(samples) && i < |samples| && j < 12
    ensures |AllWaitLines(samples, fmt)| == 12 * |samples| && |WaitLines(samples[i], fmt)| == 12
    ensures AllWaitLines(samples, fmt)[12 * i + j] == WaitLines(samples[i], fmt)[j]
  {
    var n := |samples| - 1;
    AllTwelve(samples, fmt);
    AllTwelve(samples[..n], fmt);
    TwelveLines(samples[n], fmt);
    Placed(AllWaitLines(samples[..n], fmt), WaitLines(samples[n], fmt), n, i, j);
    if i == n {
    } else {
      WaitLineOf(samples[..n], fmt, i, j);
    }
  }

  lemma Placed(front: seq<string>, last: seq<string>, n: nat, i: nat, j: nat)
    requires |front| == 12 * n && |last| == 12 && i <= n && j < 12
    ensures (front + last)[12 * i + j] == if i < n then front[12 * i + j] else last[j]
  {}

  lemma TwelveLines(s: Ledger.Sample, fmt: FloatText)
    requires |s.cumulative| == SLOTS
    ensures |WaitLines(s, fmt)| == 12
  {
    BucketLineAt(Block(WaitLabels(s.key)), s.cumulative, |BOUND_TEXT|, 0);
  }

  /** `writeMetrics`: loops appending to one text. */
  method WriteMetrics(attempts: seq<(AttemptKey, nat)>, samples: seq<Ledger.Sample>, fmt: FloatText) returns (b: string)
    requires Shaped(samples)
    ensures b == Join(MetricsLines(attempts, samples, fmt))
  {
    b := Join(ATTEMPT_HEADER);
    var more := WriteAttempts(attempts);
    JoinConcat(ATTEMPT_HEADER, AttemptLines(attempts));
    b := b + more;
    var header: seq<string> := [];
    if |samples| > 0 { header := WAIT_HEADER; }
    JoinConcat(ATTEMPT_HEADER + AttemptLines(attempts), header);
    b := b + Join(header);
    more := WriteWaits(samples, fmt);
    JoinConcat(ATTEMPT_HEADER + AttemptLines(attempts) + header, AllWaitLines(samples, fmt));
    b := b + more;
  }

  method WriteAttempts(attempts: seq<(AttemptKey, nat)>) returns (b: string)
    ensures b == Join(AttemptLines(attempts))
  {
    b := "";
    for i := 0 to |attempts|
      invariant b == Join(AttemptLines(attempts[..i]))
    {
      var line := AttemptLine(attempts[i].0, attempts[i].1);
      assert attempts[..i + 1][..i] == attempts[..i];
      JoinAppend(AttemptLines(attempts[..i]), line);
      b := b + (line + "\n");
    }
    assert attempts[..|attempts|] == attempts;
  }

  method WriteWaits(samples: seq<Ledger.Sample>, fmt: FloatText) returns (b: string)
    requires Shaped(samples)
    ensures b == Join(AllWaitLines(samples, fmt))
  {
    b := "";
    for i := 0 to |samples|
      invariant b == Join(AllWaitLines(samples[..i], fmt))
    {
      var part := WriteSample(samples[i], fmt);
      assert samples[..i + 1][..i] == samples[..i];
      JoinConcat(AllWaitLines(samples[..i], fmt), WaitLines(samples[i], fmt));
      b := b + part;
    }
    assert samples[..|samples|] == samples;
  }

  method WriteBuckets(labels: string, counts: seq<nat>) returns (b: string)
    requires |counts| == SLOTS
    ensures b == Join(BucketLines(labels, counts, |BOUND_TEXT|))
  {
    b := "";
    for i := 0 to |BOUND_TEXT|
      invariant b == Join(BucketLines(labels, counts, i))
    {
      var line := BucketLine(labels, BOUND_TEXT[i], counts[i]);
      JoinAppend(BucketLines(labels, counts, i), line);
      b := b + (line + "\n");
    }
  }

  method WriteSample(s: Ledger.Sample, fmt: FloatText) returns (b: string)
    requires |s.cumulative| == SLOTS
    ensures b == Join(WaitLines(s, fmt))
  {
    var labels := Block(WaitLabels(s.key));
    b := WriteBuckets(labels, s.cumulative);
    var inf := BucketLine(labels, "+Inf", s.cumulative[|s.cumulative| - 1]);
    var sum := SampleLine(Exporter.Head(Exporter.HistSum), labels, fmt(s.sum));
    var count := SampleLine(Exporter.Head(Exporter.HistCount), labels, Digits(s.count));
    JoinThree(BucketLines(labels, s.cumulative, |BOUND_TEXT|), inf, sum, count);
    b := b + (inf + "\n") + (sum + "\n") + (count + "\n");
  }

  // ---------------------------------------------------------------------
  // What the exporter reads in these lines.

  lemma HeadsDiffer(kind: Exporter.Kind, other: Exporter.Kind, s: string)
    requires kind != other
    ensures !(Exporter.Head(other) <= Exporter.Head(kind) + s) && !("#" <= Exporter.Head(kind) + s)
  {
    HeadChars(kind);
    HeadChars(other);
    DifferAt(Exporter.Head(kind), "#", s, 0);
    DifferAt(Exporter.Head(kind), Exporter.Head(other), s,
             if kind.AttemptCounter? || other.AttemptCounter? then 15 else |Exporter.HIST| + 1);
  }

  /** The characters that tell the families apart. */
  lemma HeadChars(kind: Exporter.Kind)
    ensures |Exporter.Head(kind)| > 15 && Exporter.Head(kind)[0] == 's'
    ensures Exporter.Head(kind)[15] == if kind.AttemptCounter? then 's' else '_'
    ensures !kind.AttemptCounter? ==>
              && |Exporter.Head(kind)| > |Exporter.HIST| + 1
              && Exporter.Head(kind)[|Exporter.HIST| + 1]
                 == match kind case HistBucket => 'b' case HistSum => 's' case _ => 'c'
  {
    if !kind.AttemptCounter? {
      assert |Exporter.HIST| > 15 && Exporter.HIST[0] == 's' && Exporter.HIST[15] == '_';
    }
  }

  lemma DifferAt(a: string, b: string, s: string, i: nat)
    requires i < |a| && i < |b| && a[i] != b[i]
    ensures !(b <= a + s)
  {
    assert (a + s)[i] == a[i];
  }

  /** A line that starts like one family is read as that family or not at all. */
  lemma ReadHead(kind: Exporter.Kind, s: string)
    ensures var line := Exporter.Head(kind) + s;
            Exporter.Read(line) == match Exporter.ReadAs(kind, line) case None => Exporter.Other case Some(r) => r
  {
    var line := Exporter.Head(kind) + s;
    forall other | other != kind ensures Exporter.ReadAs(other, line) == None && !("#" <= line) {
      NotReadAs(kind, other, s);
    }
    NotReadAs(kind, if kind.HistSum? then Exporter.HistCount else Exporter.HistSum, s);
    Exporter.OnlyReading(Exporter.CASES, kind, line);
    assert kind in Exporter.CASES by {
      var i := match kind case AttemptCounter => 0 case HistBucket => 1 case HistSum => 2 case HistCount => 3;
      assert Exporter.CASES[i] == kind;
    }
  }

  lemma NotReadAs(kind: Exporter.Kind, other: Exporter.Kind, s: string)
    requires kind != other
    ensures Exporter.ReadAs(other, Exporter.Head(kind) + s) == None && !("#" <= Exporter.Head(kind) + s)
  {
    HeadsDiffer(kind, other, s);
  }

  /** The exporter recovers exactly the label block and count the server printed. */
  lemma PrintedSampleReadsBack(kind: Exporter.Kind, labels: string, n: nat)
    ensures Exporter.Read(SampleLine(Exporter.Head(kind), labels, Digits(n)))
            == Exporter.Sample(kind, labels, n as real)
  {
    ReadHead(kind, labels + "}" + (" " + Digits(n)));
    PrintedCountReadsBack(Exporter.Head(kind), labels, n);
  }

  /** A whole served value is printed so that a reader gets back its series and the value itself. */
  lemma ServedLineReadsBack(kind: Exporter.Kind, labels: string, n: nat, fmt: Exporter.NumberText)
    requires Exporter.PrintsWhole(fmt)
    ensures Exporter.Read(Exporter.OutLine(Exporter.Served(kind, labels, n as real), fmt))
            == Exporter.Sample(kind, labels, n as real)
  {
    PrintedSampleReadsBack(kind, labels, n);
  }

  lemma SumLineIsSum(labels: string, number: string)
    ensures var r := Exporter.Read(SampleLine(Exporter.Head(Exporter.HistSum), labels, number));
            r.Sample? ==> r.kind.HistSum?
  {
    ReadHead(Exporter.HistSum, labels + "}" + (" " + number));
  }

  lemma {:induction false} RawsConcat(a: seq<string>, b: seq<string>, k: string)
    ensures Exporter.RawsOf(a + b, k) == Exporter.RawsOf(a, k) + Exporter.RawsOf(b, k)
    decreases |b|
  {
    if b == [] {
      assert a + b == a;
    } else {
      assert (a + b)[..|a + b| - 1] == a + b[..|b| - 1];
      RawsConcat(a, b[..|b| - 1], k);
    }
  }

  lemma {:induction false} NoRaws(lines: seq<string>, k: string)
    requires forall i :: 0 <= i < |lines| ==>
               var r := Exporter.Read(lines[i]); r.Sample? ==> Exporter.SeriesKey(r.kind, r.labels) != k
    ensures Exporter.RawsOf(lines, k) == []
  {
    if lines == [] {
    } else {
      NoRaws(lines[..|lines|-1], k);
    }
  }

  lemma RawsOne(line: string, k: string)
    ensures Exporter.RawsOf([line], k) ==
            var r := Exporter.Read(line); if r.Sample? && Exporter.SeriesKey(r.kind, r.labels) == k then [r.raw] else []
  {
    assert [line][..0] == [];
  }

  function InfKey(labels: string): string { Exporter.SeriesKey(Exporter.HistBucket, labels + Le("+Inf")) }
  function CountKey(labels: string): string { Exporter.SeriesKey(Exporter.HistCount, labels) }

  lemma LeDiffers(a: string, b: string, bound: string)
    requires bound in BOUND_TEXT
    ensures a + Le(bound) != b + Le("+Inf")
  {
    var x, y := a + Le(bound), b + Le("+Inf");
    assert IsDigit(bound[|bound| - 1]);
    assert x[|x| - 2] == bound[|bound| - 1];
    assert y[|y| - 2] == 'f';
  }

  lemma LeSame(a: string, b: string)
    ensures a + Le("+Inf") == b + Le("+Inf") <==> a == b
  {
    if a + Le("+Inf") == b + Le("+Inf") {
      assert a == (a + Le("+Inf"))[..|a|] && b == (b + Le("+Inf"))[..|b|];
    }
  }

  lemma {:induction false} BucketsAreOther(labels: string, counts: seq<nat>, n: nat, l: string)
    requires n <= |BOUND_TEXT| && n <= |counts|
    ensures Exporter.RawsOf(BucketLines(labels, counts, n), InfKey(l)) == []
    ensures Exporter.RawsOf(BucketLines(labels, counts, n), CountKey(l)) == []
  {
    if n == 0 {
    } else {
      BucketsAreOther(labels, counts, n - 1, l);
      OneMoreOther(BucketLines(labels, counts, n - 1), labels, BOUND_TEXT[n - 1], counts[n - 1], l);
    }
  }

  lemma OneMoreOther(lines: seq<string>, labels: string, bound: string, n: nat, l: string)
    requires bound in BOUND_TEXT
    requires Exporter.RawsOf(lines, InfKey(l)) == [] && Exporter.RawsOf(lines, CountKey(l)) == []
    ensures var more := lines + [BucketLine(labels, bound, n)];
            Exporter.RawsOf(more, InfKey(l)) == [] && Exporter.RawsOf(more, CountKey(l)) == []
  {
    RawsConcat(lines, [BucketLine(labels, bound, n)], InfKey(l));
    RawsConcat(lines, [BucketLine(labels, bound, n)], CountKey(l));
    BucketIsOther(labels, bound, n, l);
  }

  lemma BucketIsOther(labels: string, bound: string, n: nat, l: string)
    requires bound in BOUND_TEXT
    ensures Exporter.RawsOf([BucketLine(labels, bound, n)], InfKey(l)) == []
    ensures Exporter.RawsOf([BucketLine(labels, bound, n)], CountKey(l)) == []
  {
    var line := BucketLine(labels, bound, n);
    PrintedSampleReadsBack(Exporter.HistBucket, labels + Le(bound), n);
    LeDiffers(labels, l, bound);
    Exporter.SeriesKeysInjective(Exporter.HistBucket, labels + Le(bound), Exporter.HistBucket, l + Le("+Inf"));
    Exporter.SeriesKeysInjective(Exporter.HistBucket, labels + Le(bound), Exporter.HistCount, l);
    RawsOne(line, InfKey(l));
    RawsOne(line, CountKey(l));
  }

  lemma SampleRaws(s: Ledger.Sample, fmt: FloatText, l: string)
    requires |s.cumulative| == SLOTS
    ensures var own := Block(WaitLabels(s.key)) == l;
            && Exporter.RawsOf(WaitLines(s, fmt), InfKey(l)) == (if own then [s.cumulative[SLOTS - 1] as real] else [])
            && Exporter.RawsOf(WaitLines(s, fmt), CountKey(l)) == (if own then [s.count as real] else [])
  {
    var labels := Block(WaitLabels(s.key));
    var buckets := BucketLines(labels, s.cumulative, |BOUND_TEXT|);
    var inf := BucketLine(labels, "+Inf", s.cumulative[SLOTS - 1]);
    var sum := SampleLine(Exporter.Head(Exporter.HistSum), labels, fmt(s.sum));
    var count := SampleLine(Exporter.Head(Exporter.HistCount), labels, Digits(s.count));
    BucketsAreOther(labels, s.cumulative, |BOUND_TEXT|, l);
    InfLineRaws(labels, s.cumulative[SLOTS - 1], l);
    SumLineRaws(labels, fmt(s.sum), l);
    CountLineRaws(labels, s.count, l);
    assert WaitLines(s, fmt) == buckets + ([inf] + ([sum] + [count]));
    forall k ensures Exporter.RawsOf(WaitLines(s, fmt), k) ==
      Exporter.RawsOf(buckets, k)
      + (Exporter.RawsOf([inf], k) + (Exporter.RawsOf([sum], k) + Exporter.RawsOf([count], k)))
    {
      RawsConcat(buckets, [inf] + ([sum] + [count]), k);
      RawsConcat([inf], [sum] + [count], k);
      RawsConcat([sum], [count], k);
    }
  }

  lemma InfLineRaws(labels: string, n: nat, l: string)
    ensures Exporter.RawsOf([BucketLine(labels, "+Inf", n)], InfKey(l)) == if labels == l then [n as real] else []
    ensures Exporter.RawsOf([BucketLine(labels, "+Inf", n)], CountKey(l)) == []
  {
    PrintedSampleReadsBack(Exporter.HistBucket, labels + Le("+Inf"), n);
    LeSame(labels, l);
    Exporter.SeriesKeysInjective(Exporter.HistBucket, labels + Le("+Inf"), Exporter.HistBucket, l + Le("+Inf"));
    Exporter.SeriesKeysInjective(Exporter.HistBucket, labels + Le("+Inf"), Exporter.HistCount, l);
    RawsOne(BucketLine(labels, "+Inf", n), InfKey(l));
    RawsOne(BucketLine(labels, "+Inf", n), CountKey(l));
  }

  lemma SumLineRaws(labels: string, number: string, l: string)
    ensures var line := SampleLine(Exporter.Head(Exporter.HistSum), labels, number);
            Exporter.RawsOf([line], InfKey(l)) == [] && Exporter.RawsOf([line], CountKey(l)) == []
  {
    var line := SampleLine(Exporter.Head(Exporter.HistSum), labels, number);
    SumLineIsSum(labels, number);
    var r := Exporter.Read(line);
    if r.Sample? {
      Exporter.SeriesKeysInjective(r.kind, r.labels, Exporter.HistBucket, l + Le("+Inf"));
      Exporter.SeriesKeysInjective(r.kind, r.labels, Exporter.HistCount, l);
    }
    RawsOne(line, InfKey(l));
    RawsOne(line, CountKey(l));
  }

  lemma CountLineRaws(labels: string, n: nat, l: string)
    ensures var line := SampleLine(Exporter.Head(Exporter.HistCount), labels, Digits(n));
            && Exporter.RawsOf([line], InfKey(l)) == []
            && Exporter.RawsOf([line], CountKey(l)) == (if labels == l then [n as real] else [])
  {
    var line := SampleLine(Exporter.Head(Exporter.HistCount), labels, Digits(n));
    PrintedSampleReadsBack(Exporter.HistCount, labels, n);
    Exporter.SeriesKeysInjective(Exporter.HistCount, labels, Exporter.HistBucket, l + Le("+Inf"));
    Exporter.SeriesKeysInjective(Exporter.HistCount, labels, Exporter.HistCount, l);
    RawsOne(line, InfKey(l));
    RawsOne(line, CountKey(l));
  }

  predicate Balanced(samples: seq<Ledger.Sample>) {
    Shaped(samples) && forall i :: 0 <= i < |samples| ==> samples[i].cumulative[SLOTS - 1] == samples[i].count
  }

  lemma {:induction false} AllSamplesRaws(samples: seq<Ledger.Sample>, fmt: FloatText, l: string)
    requires Balanced(samples)
    ensures Exporter.RawsOf(AllWaitLines(samples, fmt), InfKey(l))
            == Exporter.RawsOf(AllWaitLines(samples, fmt), CountKey(l))
  {
    if samples == [] {
    } else {
      var front, s := samples[..|samples|-1], samples[|samples|-1];
      AllSamplesRaws(front, fmt, l);
      SampleRaws(s, fmt, l);
      RawsConcat(AllWaitLines(front, fmt), WaitLines(s, fmt), InfKey(l));
      RawsConcat(AllWaitLines(front, fmt), WaitLines(s, fmt), CountKey(l));
    }
  }

  lemma {:induction false} AttemptsAreOther(attempts: seq<(AttemptKey, nat)>, l: string)
    ensures Exporter.RawsOf(AttemptLines(attempts), InfKey(l)) == []
    ensures Exporter.RawsOf(AttemptLines(attempts), CountKey(l)) == []
  {
    if attempts == [] {
    } else {
      var front, a := attempts[..|attempts|-1], attempts[|attempts|-1];
      AttemptsAreOther(front, l);
      var line, labels := AttemptLine(a.0, a.1), Block(AttemptLabels(a.0));
      PrintedSampleReadsBack(Exporter.AttemptCounter, labels, a.1);
      Exporter.SeriesKeysInjective(Exporter.AttemptCounter, labels, Exporter.HistBucket, l + Le("+Inf"));
      Exporter.SeriesKeysInjective(Exporter.AttemptCounter, labels, Exporter.HistCount, l);
      RawsConcat(AttemptLines(front), [line], InfKey(l));
      RawsConcat(AttemptLines(front), [line], CountKey(l));
      RawsOne(line, InfKey(l));
      RawsOne(line, CountKey(l));
    }
  }

  /** In one body, every "+Inf" bucket and its "_count" list the same raw values. */
  lemma BodyIsPaired(attempts: seq<(AttemptKey, nat)>, samples: seq<Ledger.Sample>, fmt: FloatText,
                     rest: seq<string>, l: string)
    requires Balanced(samples) && Exporter.NotSamples(rest)
    ensures var lines := MetricsLines(attempts, samples, fmt) + rest;
            Exporter.RawsOf(lines, InfKey(l)) == Exporter.RawsOf(lines, CountKey(l))
  {
    var header := if |samples| > 0 then WAIT_HEADER else [];
    var waits := AllWaitLines(samples, fmt);
    AttemptsAreOther(attempts, l);
    AllSamplesRaws(samples, fmt, l);
    forall k | k == InfKey(l) || k == CountKey(l)
      ensures Exporter.RawsOf(MetricsLines(attempts, samples, fmt) + rest, k) == Exporter.RawsOf(waits, k)
    {
      HeadersSilent(k);
      NoRaws(rest, k);
      OnlyOneSpeaks(ATTEMPT_HEADER, AttemptLines(attempts), header, waits, rest, k);
    }
  }

  lemma HeadersAreComments()
    ensures forall i :: 0 <= i < |ATTEMPT_HEADER| ==> OneLine(ATTEMPT_HEADER[i]) && "#" <= ATTEMPT_HEADER[i]
    ensures forall i :: 0 <= i < |WAIT_HEADER| ==> OneLine(WAIT_HEADER[i]) && "#" <= WAIT_HEADER[i]
  {
    AttemptHeader();
    WaitHelp();
    WaitHelp2();
    WaitHelp3();
    WaitType();
  }

  lemma AttemptHeader()
    ensures OneLine(ATTEMPT_HELP) && "#" <= ATTEMPT_HELP && OneLine(ATTEMPT_TYPE) && "#" <= ATTEMPT_TYPE
  {
    AttemptHelp();
    AttemptType();
  }

  lemma AttemptHelp()
    ensures OneLine(ATTEMPT_HELP) && "#" <= ATTEMPT_HELP
  { CommentLine("# HELP smolllm_attempts_total", " Model call attempts", " by outcome."); }

  lemma AttemptType()
    ensures OneLine(ATTEMPT_TYPE) && "#" <= ATTEMPT_TYPE
  { CommentLine("# TYPE smolllm_attempts", "_total", " counter"); }

  lemma WaitHelp()
    ensures OneLine(WAIT_HELP) && "#" <= WAIT_HELP
  { CommentLine("# HELP smolllm_attempt_first_output", "_seconds Seconds from request", " start to the first"); }

  lemma WaitHelp2()
    ensures OneLine(WAIT_HELP_2) && "#" <= WAIT_HELP_2
  { CommentLine("# output token of a successful", " attempt. Abandoned attempts", " are excluded:"); }

  lemma WaitHelp3()
    ensures OneLine(WAIT_HELP_3) && "#" <= WAIT_HELP_3
  { CommentLine("# their wait is the budget,", " and belongs in", " smolllm_attempts_total."); }

  lemma WaitType()
    ensures OneLine(WAIT_TYPE) && "#" <= WAIT_TYPE
  { CommentLine("# TYPE smolllm_attempt_first", "_output_seconds", " histogram"); }

  lemma {:induction false} ContainsInside(a: string, t: string, b: string)
    ensures Exporter.Contains(a + t + b, t)
    decreases |a|
  {
    var s := a + t + b;
    if a == "" {
      assert s == t + b;
    } else {
      assert s[1..] == a[1..] + t + b;
      ContainsInside(a[1..], t, b);
    }
  }

  /** The exporter drops a comment of any family that mentions the attempt counter anywhere,
      unless it is one of the two TYPE lines. */
  lemma MentionIsDropped(a: string, b: string)
    requires var line := a + Exporter.ATTEMPTS + b; !(Exporter.HIST_TYPE <= line) && !(Exporter.ATTEMPTS_TYPE <= line)
    ensures Exporter.CommentOut(a + Exporter.ATTEMPTS + b) == []
  {
    ContainsInside(a, Exporter.ATTEMPTS, b);
  }

  /** The third help line of the wait histogram is such a comment. */
  lemma WaitHelpLosesALine()
    ensures Exporter.Read(WAIT_HELP_3) == Exporter.Comment && Exporter.CommentOut(WAIT_HELP_3) == []
  {
    WaitHelp3();
    var a := "# their wait is the budget," + " and belongs in" + " ";
    var line := a + Exporter.ATTEMPTS + ".";
    assert WAIT_HELP_3 == line;
    assert line[2] == 't' && Exporter.HIST_TYPE[2] == 'T' && Exporter.ATTEMPTS_TYPE[2] == 'T';
    MentionIsDropped(a, ".");
  }

  lemma HeadersSilent(k: string)
    ensures Exporter.RawsOf(ATTEMPT_HEADER, k) == [] && Exporter.RawsOf(WAIT_HEADER, k) == []
  {
    HeadersAreComments();
    NoRaws(ATTEMPT_HEADER, k);
    NoRaws(WAIT_HEADER, k);
  }

  lemma OnlyOneSpeaks(a: seq<string>, b: seq<string>, c: seq<string>, d: seq<string>, e: seq<string>, k: string)
    requires Exporter.RawsOf(a, k) == [] && Exporter.RawsOf(b, k) == [] && Exporter.RawsOf(c, k) == []
             && Exporter.RawsOf(e, k) == []
    ensures Exporter.RawsOf(a + b + c + d + e, k) == Exporter.RawsOf(d, k)
  {
    RawsConcat(a + b + c + d, e, k);
    RawsConcat(a + b + c, d, k);
    RawsConcat(a + b, c, k);
    RawsConcat(a, b, k);
  }

  // ---------------------------------------------------------------------
  // From the printed text back to lines.

  lemma SampleIsOneLine(kind: Exporter.Kind, labels: string, number: string)
    ensures OneLine(SampleLine(Exporter.Head(kind), labels, number)) <==> OneLine(labels) && OneLine(number)
  {
    HeadIsOneLine(kind);
    WrappedIsOneLine(Exporter.Head(kind), labels, number);
  }

  lemma HeadIsOneLine(kind: Exporter.Kind)
    ensures OneLine(Exporter.Head(kind))
  {
    FamiliesAreOneLine();
    match kind
    case AttemptCounter => OneLineConcat(Exporter.ATTEMPTS, "{");
    case HistBucket => OneLineConcat(Exporter.HIST, "_bucket{");
    case HistSum => OneLineConcat(Exporter.HIST, "_sum{");
    case HistCount => OneLineConcat(Exporter.HIST, "_count{");
  }

  lemma FamiliesAreOneLine()
    ensures OneLine(Exporter.ATTEMPTS) && OneLine(Exporter.HIST)
  {
    PrintableIsOneLine(Exporter.ATTEMPTS);
    PrintableIsOneLine("smolllm_attempt_first");
    PrintableIsOneLine("_output_seconds");
    OneLineConcat("smolllm_attempt_first", "_output_seconds");
  }

  lemma BucketLineIsOneLine(labels: string, bound: string, n: nat)
    ensures OneLine(BucketLine(labels, bound, n)) <==> OneLine(labels) && OneLine(bound)
  {
    DigitsAreOneLine(n);
    SampleIsOneLine(Exporter.HistBucket, labels + Le(bound), Digits(n));
    OneLineConcat(labels, Le(bound));
    OneLineConcat(",le=\"", bound);
    OneLineConcat(",le=\"" + bound, "\"");
  }

  lemma {:induction false} BucketLinesAreOneLine(labels: string, counts: seq<nat>, n: nat)
    requires n <= |BOUND_TEXT| && n <= |counts| && OneLine(labels)
    ensures AllOneLine(BucketLines(labels, counts, n))
  {
    if n == 0 {
    } else {
      BucketLinesAreOneLine(labels, counts, n - 1);
      BucketLineIsOneLine(labels, BOUND_TEXT[n - 1], counts[n - 1]);
    }
  }

  lemma WaitLinesAreOneLine(s: Ledger.Sample, fmt: FloatText)
    requires |s.cumulative| == SLOTS && OneLine(fmt(s.sum))
    ensures AllOneLine(WaitLines(s, fmt)) <==> SafeLabels(WaitLabels(s.key))
  {
    WaitNames(s.key);
    BlockIsOneLine(WaitLabels(s.key));
    HistLinesAreOneLine(Block(WaitLabels(s.key)), s.cumulative, fmt(s.sum), s.count);
  }

  lemma SumTextIsOneLine(labels: string, sumText: string)
    ensures OneLine(SampleLine(Exporter.Head(Exporter.HistSum), labels, sumText))
            <==> OneLine(labels) && OneLine(sumText)
  { SampleIsOneLine(Exporter.HistSum, labels, sumText); }

  lemma CountTextIsOneLine(labels: string, n: nat)
    ensures OneLine(SampleLine(Exporter.Head(Exporter.HistCount), labels, Digits(n))) <==> OneLine(labels)
  {
    DigitsAreOneLine(n);
    SampleIsOneLine(Exporter.HistCount, labels, Digits(n));
  }

  lemma HistLinesAreOneLine(labels: string, counts: seq<nat>, sumText: string, n: nat)
    requires |counts| == SLOTS && OneLine(sumText)
    ensures AllOneLine(HistLines(labels, counts, sumText, n)) <==> OneLine(labels)
  {
    BucketLineIsOneLine(labels, "+Inf", counts[|counts| - 1]);
    SumTextIsOneLine(labels, sumText);
    CountTextIsOneLine(labels, n);
    ThreeMore(BucketLines(labels, counts, |BOUND_TEXT|), BucketLine(labels, "+Inf", counts[|counts| - 1]),
              SampleLine(Exporter.Head(Exporter.HistSum), labels, sumText),
              SampleLine(Exporter.Head(Exporter.HistCount), labels, Digits(n)));
    if OneLine(labels) { BucketLinesAreOneLine(labels, counts, |BOUND_TEXT|); }
  }

  lemma AttemptLineIsOneLine(k: AttemptKey, n: nat)
    ensures OneLine(AttemptLine(k, n)) <==> SafeLabels(AttemptLabels(k))
  {
    AttemptNames(k);
    BlockIsOneLine(AttemptLabels(k));
    AttemptTextIsOneLine(Block(AttemptLabels(k)), n);
  }

  lemma AttemptNames(k: AttemptKey)
    ensures forall i :: 0 <= i < |AttemptLabels(k)| ==> OneLine(AttemptLabels(k)[i].name)
  {
    OwnNames();
  }

  lemma WaitNames(k: WaitKey)
    ensures forall i :: 0 <= i < |WaitLabels(k)| ==> OneLine(WaitLabels(k)[i].name)
  {
    OwnNames();
  }

  lemma OwnNames()
    ensures OneLine("alias") && OneLine("provider") && OneLine("model") && OneLine("outcome") && OneLine("phase")
            && OneLine("streaming")
  {
    PrintableIsOneLine("alias");
    PrintableIsOneLine("provider");
    PrintableIsOneLine("model");
    PrintableIsOneLine("outcome");
    PrintableIsOneLine("phase");
    PrintableIsOneLine("streaming");
  }

  lemma AttemptTextIsOneLine(labels: string, n: nat)
    ensures OneLine(SampleLine(Exporter.Head(Exporter.AttemptCounter), labels, Digits(n))) <==> OneLine(labels)
  {
    DigitsAreOneLine(n);
    SampleIsOneLine(Exporter.AttemptCounter, labels, Digits(n));
  }

  predicate SafeAttempts(attempts: seq<(AttemptKey, nat)>) {
    forall i :: 0 <= i < |attempts| ==> SafeLabels(AttemptLabels(attempts[i].0))
  }
  predicate SafeSamples(samples: seq<Ledger.Sample>) {
    forall i :: 0 <= i < |samples| ==> SafeLabels(WaitLabels(samples[i].key))
  }

  lemma SafeAttemptsSplit(front: seq<(AttemptKey, nat)>, a: (AttemptKey, nat))
    ensures SafeAttempts(front + [a]) <==> SafeAttempts(front) && SafeLabels(AttemptLabels(a.0))
  {
    var all := front + [a];
    assert forall i :: 0 <= i < |front| ==> all[i] == front[i];
    assert all[|front|] == a;
  }

  lemma SafeSamplesSplit(front: seq<Ledger.Sample>, s: Ledger.Sample)
    ensures SafeSamples(front + [s]) <==> SafeSamples(front) && SafeLabels(WaitLabels(s.key))
  {
    var all := front + [s];
    assert forall i :: 0 <= i < |front| ==> all[i] == front[i];
    assert all[|front|] == s;
  }

  lemma {:induction false} AttemptLinesAreOneLine(attempts: seq<(AttemptKey, nat)>)
    ensures AllOneLine(AttemptLines(attempts)) <==> SafeAttempts(attempts)
  {
    if attempts == [] {
    } else {
      var front, a := attempts[..|attempts|-1], attempts[|attempts|-1];
      AttemptLinesAreOneLine(front);
      AttemptLineIsOneLine(a.0, a.1);
      OneMore(AttemptLines(front), AttemptLine(a.0, a.1));
      SafeAttemptsSplit(front, a);
      LastOff(attempts);
    }
  }

  lemma {:induction false} AllWaitLinesAreOneLine(samples: seq<Ledger.Sample>, fmt: FloatText)
    requires Shaped(samples) && forall x :: OneLine(fmt(x))
    ensures AllOneLine(AllWaitLines(samples, fmt)) <==> SafeSamples(samples)
  {
    if samples == [] {
    } else {
      var front, s := samples[..|samples|-1], samples[|samples|-1];
      AllWaitLinesAreOneLine(front, fmt);
      WaitLinesAreOneLine(s, fmt);
      BothOneLine(AllWaitLines(front, fmt), WaitLines(s, fmt), SafeSamples(front), SafeLabels(WaitLabels(s.key)));
      SafeSamplesSplit(front, s);
      LastOff(samples);
    }
  }

  lemma LastOff<T>(s: seq<T>)
    requires s != []
    ensures s == s[..|s|-1] + [s[|s|-1]]
  {}

  lemma BothOneLine(a: seq<string>, b: seq<string>, p: bool, q: bool)
    requires (AllOneLine(a) <==> p) && (AllOneLine(b) <==> q)
    ensures AllOneLine(a + b) <==> p && q
  {
    AllOneLineConcat(a, b);
  }

  /** The exporter sees the lines the server printed exactly when no label value holds a Python
      line break other than newline (which escaping removes). */
  lemma LinesSurviveTransport(attempts: seq<(AttemptKey, nat)>, samples: seq<Ledger.Sample>, fmt: FloatText)
    requires Shaped(samples) && forall x :: OneLine(fmt(x))
    ensures var lines := MetricsLines(attempts, samples, fmt);
            SplitLines(Join(lines)) == lines <==> SafeAttempts(attempts) && SafeSamples(samples)
  {
    var header := if |samples| > 0 then WAIT_HEADER else [];
    HeadersAreComments();
    AttemptLinesAreOneLine(attempts);
    AllWaitLinesAreOneLine(samples, fmt);
    AllOneLineConcat(ATTEMPT_HEADER, AttemptLines(attempts));
    AllOneLineConcat(ATTEMPT_HEADER + AttemptLines(attempts), header);
    AllOneLineConcat(ATTEMPT_HEADER + AttemptLines(attempts) + header, AllWaitLines(samples, fmt));
    SplitUndoesJoin(MetricsLines(attempts, samples, fmt));
  }

  /** A carriage return in a client's model name breaks the page: escaping leaves it alone, and
      the exporter takes it for the end of a line. */
  lemma CarriageReturnBreaksThePage(attempts: seq<(AttemptKey, nat)>, samples: seq<Ledger.Sample>,
                                    fmt: FloatText, i: nat)
    requires Shaped(samples) && (forall x :: OneLine(fmt(x))) && i < |attempts| && '\r' in attempts[i].0.alias
    ensures var lines := MetricsLines(attempts, samples, fmt); SplitLines(Join(lines)) != lines
  {
    LinesSurviveTransport(attempts, samples, fmt);
    var ls := AttemptLabels(attempts[i].0);
    assert !SafeLabels(ls) by {
      var j :| 0 <= j < |ls[0].value| && ls[0].value[j] == '\r';
      assert !OneLineButNewline(ls[0].value);
    }
  }
}
