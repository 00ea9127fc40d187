/** From the ledger's history through the printed page to the served values, scrape after
    scrape, across server and exporter restarts. */
module Pipeline {
  import opened Decimal
  import opened LedgerHistory
  import opened Exposition
  import opened Metrics
  import Counter
  import Ledger
  import Exporter

  // ---------------------------------------------------------------------
  // Scrape after scrape, through upstream and exporter restarts.

  /** What one scrape finds: the views of some ledger, and lines of other families. */
  datatype Page = Page(attempts: seq<(AttemptKey, nat)>, samples: seq<Ledger.Sample>, rest: seq<string>) {
    predicate Valid() { Shaped(samples) }
    function Lines(fmt: FloatText): seq<string> requires Valid() { MetricsLines(attempts, samples, fmt) + rest }
    /** The response body, which is what the exporter splits into lines again. */
    function Body(fmt: FloatText): string requires Valid() { Join(Lines(fmt)) }
    predicate Safe() { SafeAttempts(attempts) && SafeSamples(samples) && AllOneLine(rest) }
  }

  /** The page shows a ledger with the given history. */
  predicate Shows(p: Page, es: seq<Entry>) {
    && (forall i :: 0 <= i < |p.samples| ==> p.samples[i] == Ledger.SampleOf(es, p.samples[i].key))
    && Exporter.NotSamples(p.rest)
  }

  lemma BodyArrives(p: Page, fmt: FloatText)
    requires p.Valid() && p.Safe() && forall x :: OneLine(fmt(x))
    ensures SplitLines(p.Body(fmt)) == p.Lines(fmt)
  {
    LinesSurviveTransport(p.attempts, p.samples, fmt);
    AllOneLineConcat(MetricsLines(p.attempts, p.samples, fmt), p.rest);
    SplitUndoesJoin(MetricsLines(p.attempts, p.samples, fmt));
    SplitUndoesJoin(p.Lines(fmt));
  }

  /** A scrape transforms a page with the memory left by an earlier scrape of the run: the
      previous one, or, after an exporter restart, whichever was saved last (0 is no memory).
      A transform that raises has taken in the lines before `stop` and serves nothing. */
  datatype Visit = Visit(page: Page, from: nat, stop: Option<nat>)

  predicate ValidRun(run: seq<Visit>) {
    forall i :: 0 <= i < |run| ==> run[i].from <= i && run[i].page.Valid()
  }

  /** What a blank memory has, and every visit keeps from the memory it builds on, every memory has. */
  lemma {:induction false} HoldsAlong(run: seq<Visit>, ok: seq<bool>, n: nat)
    requires ValidRun(run) && |ok| == |run| + 1 && n <= |run| && ok[0]
    requires forall m :: 0 <= m < |run| && ok[run[m].from] ==> ok[m + 1]
    ensures ok[n]
    decreases n
  {
    if n == 0 {
    } else {
      HoldsAlong(run, ok, run[n - 1].from);
    }
  }

  /** The lines a visit takes in. */
  function Taken(v: Visit, fmt: FloatText): seq<string>
    requires v.page.Valid()
  {
    var lines := SplitLines(v.page.Body(fmt));
    if v.stop.Some? && v.stop.value < |lines| then lines[..v.stop.value] else lines
  }

  function MemoryAfter(run: seq<Visit>, n: nat, fmt: FloatText): Exporter.Memory
    requires ValidRun(run) && n <= |run|
    decreases n
  {
    if n == 0 then Exporter.BLANK
    else Exporter.Transform(MemoryAfter(run, run[n - 1].from, fmt), Taken(run[n - 1], fmt)).0
  }

  function ServedBy(run: seq<Visit>, n: nat, fmt: FloatText): seq<Exporter.Out>
    requires ValidRun(run) && n < |run|
  {
    if run[n].stop.Some? then []
    else Exporter.Transform(MemoryAfter(run, run[n].from, fmt), Taken(run[n], fmt)).1
  }

  /** Each series is stepped by the raw values taken in, and served along them. */
  lemma VisitServes(run: seq<Visit>, n: nat, fmt: FloatText, k: string)
    requires ValidRun(run) && n < |run|
    ensures var c := Exporter.CellAt(MemoryAfter(run, run[n].from, fmt), k);
            var raws := Exporter.RawsOf(Taken(run[n], fmt), k);
            && Exporter.CellAt(MemoryAfter(run, n + 1, fmt), k) == Counter.Run(c, raws)
            && Exporter.ValuesOf(ServedBy(run, n, fmt), k)
               == if run[n].stop.Some? then [] else Exporter.ServedAlong(c, raws)
  {
    Exporter.TransformServesCells(MemoryAfter(run, run[n].from, fmt), Taken(run[n], fmt), k);
  }

  /** What a visit takes in of a series that its page lists at most once: that listing or nothing. */
  lemma TakenRaws(v: Visit, fmt: FloatText, k: string)
    requires v.page.Valid() && v.page.Safe() && forall x :: OneLine(fmt(x))
    requires |Exporter.RawsOf(v.page.Lines(fmt), k)| <= 1
    ensures var taken, all := Exporter.RawsOf(Taken(v, fmt), k), Exporter.RawsOf(v.page.Lines(fmt), k);
            (taken == [] || taken == all) && (v.stop.None? ==> taken == all)
  {
    BodyArrives(v.page, fmt);
    var lines := v.page.Lines(fmt);
    if v.stop.Some? && v.stop.value < |lines| { PrefixRaws(lines, v.stop.value, k); }
  }

  lemma {:induction false} PrefixRaws(lines: seq<string>, n: nat, k: string)
    requires n <= |lines| && |Exporter.RawsOf(lines, k)| <= 1
    ensures Exporter.RawsOf(lines[..n], k) == [] || Exporter.RawsOf(lines[..n], k) == Exporter.RawsOf(lines, k)
  {
    assert lines[..n] + lines[n..] == lines;
    RawsOfFirst(lines[..n], lines[n..], lines, k);
  }

  lemma {:induction false} RawsOfFirst(a: seq<string>, b: seq<string>, all: seq<string>, k: string)
    requires a + b == all && |Exporter.RawsOf(all, k)| <= 1
    ensures Exporter.RawsOf(a, k) == [] || Exporter.RawsOf(a, k) == Exporter.RawsOf(all, k)
  {
    RawsConcat(a, b, k);
    PartOfOne(Exporter.RawsOf(a, k), Exporter.RawsOf(b, k), Exporter.RawsOf(all, k));
  }

  lemma PartOfOne(a: seq<real>, b: seq<real>, all: seq<real>)
    requires a + b == all && |all| <= 1
    ensures a == [] || a == all
  {}

  function ServedOf(c: Counter.Cell, x: seq<real>): seq<real> {
    if x == [] then [] else [Counter.Step(c, x[0]).Served()]
  }

  lemma OneRaw(c: Counter.Cell, raws: seq<real>)
    requires |raws| <= 1
    ensures Counter.Run(c, raws) == Exporter.After(c, raws)
    ensures Exporter.ServedAlong(c, raws) == ServedOf(c, raws)
  {
    if raws != [] { assert raws[..0] == []; }
  }

  /** A series that the page lists at most once moves by at most one step, and is served where it gets to. */
  lemma VisitSteps(run: seq<Visit>, n: nat, fmt: FloatText, k: string)
    requires ValidRun(run) && n < |run| && run[n].page.Safe() && forall x :: OneLine(fmt(x))
    requires |Exporter.RawsOf(run[n].page.Lines(fmt), k)| <= 1
    ensures var c, x := Exporter.CellAt(MemoryAfter(run, run[n].from, fmt), k), Exporter.RawsOf(Taken(run[n], fmt), k);
            && |x| <= 1
            && Exporter.CellAt(MemoryAfter(run, n + 1, fmt), k) == Exporter.After(c, x)
            && Exporter.ValuesOf(ServedBy(run, n, fmt), k) == if run[n].stop.Some? then [] else ServedOf(c, x)
  {
    TakenRaws(run[n], fmt, k);
    VisitServes(run, n, fmt, k);
    OneRaw(Exporter.CellAt(MemoryAfter(run, run[n].from, fmt), k), Exporter.RawsOf(Taken(run[n], fmt), k));
  }

  /** No transform of the run stopped between the "+Inf" line of a series and its count. */
  predicate NoneSplit(run: seq<Visit>, fmt: FloatText, l: string)
    requires ValidRun(run)
  {
    forall i :: 0 <= i < |run| && run[i].stop.Some? ==>
      Exporter.RawsOf(Taken(run[i], fmt), InfKey(l)) == Exporter.RawsOf(Taken(run[i], fmt), CountKey(l))
  }

  lemma ShownIsBalanced(p: Page, es: seq<Entry>)
    requires p.Valid() && Shows(p, es)
    ensures Balanced(p.samples)
  {
    forall i | 0 <= i < |p.samples| ensures p.samples[i].cumulative[SLOTS - 1] == p.samples[i].count {
      CumulativeIsExact(es, p.samples[i].key, SLOTS - 1);
    }
  }

  lemma VisitIsPaired(v: Visit, fmt: FloatText, l: string)
    requires v.page.Valid() && v.page.Safe() && v.stop.None? && forall x :: OneLine(fmt(x))
    requires Balanced(v.page.samples) && Exporter.NotSamples(v.page.rest)
    ensures Exporter.RawsOf(Taken(v, fmt), InfKey(l)) == Exporter.RawsOf(Taken(v, fmt), CountKey(l))
  {
    BodyIsPaired(v.page.attempts, v.page.samples, fmt, v.page.rest, l);
    BodyArrives(v.page, fmt);
  }

  predicate PairedPages(run: seq<Visit>) {
    forall i :: 0 <= i < |run| ==>
      Balanced(run[i].page.samples) && Exporter.NotSamples(run[i].page.rest) && run[i].page.Safe()
  }

  /** The "+Inf" bucket of a series and its count are at the same cell. */
  predicate PairAt(run: seq<Visit>, n: nat, fmt: FloatText, l: string)
    requires ValidRun(run) && n <= |run|
  {
    Exporter.CellAt(MemoryAfter(run, n, fmt), InfKey(l)) == Exporter.CellAt(MemoryAfter(run, n, fmt), CountKey(l))
  }

  lemma PairAfterVisit(run: seq<Visit>, n: nat, fmt: FloatText, l: string)
    requires ValidRun(run) && n < |run| && PairedPages(run) && NoneSplit(run, fmt, l)
    requires forall x :: OneLine(fmt(x))
    requires PairAt(run, run[n].from, fmt, l)
    ensures PairAt(run, n + 1, fmt, l)
    ensures Exporter.ValuesOf(ServedBy(run, n, fmt), InfKey(l)) == Exporter.ValuesOf(ServedBy(run, n, fmt), CountKey(l))
  {
    TakenIsPaired(run, n, fmt, l);
    VisitServes(run, n, fmt, InfKey(l));
    VisitServes(run, n, fmt, CountKey(l));
  }

  lemma TakenIsPaired(run: seq<Visit>, n: nat, fmt: FloatText, l: string)
    requires ValidRun(run) && n < |run| && PairedPages(run) && NoneSplit(run, fmt, l)
    requires forall x :: OneLine(fmt(x))
    ensures Exporter.RawsOf(Taken(run[n], fmt), InfKey(l)) == Exporter.RawsOf(Taken(run[n], fmt), CountKey(l))
  {
    if run[n].stop.None? { VisitIsPaired(run[n], fmt, l); }
  }

  lemma CellsArePaired(run: seq<Visit>, n: nat, fmt: FloatText, l: string)
    requires ValidRun(run) && n <= |run| && PairedPages(run) && NoneSplit(run, fmt, l)
    requires forall x :: OneLine(fmt(x))
    ensures PairAt(run, n, fmt, l)
  {
    var ok := Paired(run, fmt, l);
    forall m | 0 <= m < |run| && ok[run[m].from] ensures ok[m + 1] { PairAfterVisit(run, m, fmt, l); }
    PairAtStart(run, fmt, l);
    HoldsAlong(run, ok, n);
  }

  function Paired(run: seq<Visit>, fmt: FloatText, l: string): (ok: seq<bool>)
    requires ValidRun(run)
    ensures |ok| == |run| + 1 && forall m :: 0 <= m <= |run| ==> ok[m] == PairAt(run, m, fmt, l)
  {
    seq(|run| + 1, m requires 0 <= m <= |run| => PairAt(run, m, fmt, l))
  }

  lemma PairAtStart(run: seq<Visit>, fmt: FloatText, l: string)
    requires ValidRun(run)
    ensures PairAt(run, 0, fmt, l)
  {}

  /** From the ledger's counting through the printed text to the served values: after every
      scrape of every run, across any number of server and exporter restarts, the served "+Inf"
      bucket of each series equals its served "_count", as long as no transform stopped between
      the two lines. */
  lemma InfEqualsCount(run: seq<Visit>, histories: seq<seq<Entry>>, n: nat, fmt: FloatText, l: string)
    requires ValidRun(run) && |histories| == |run| && n < |run| && NoneSplit(run, fmt, l)
    requires forall i :: 0 <= i < |run| ==> Shows(run[i].page, histories[i]) && run[i].page.Safe()
    requires forall x :: OneLine(fmt(x))
    ensures Exporter.ValuesOf(ServedBy(run, n, fmt), InfKey(l)) == Exporter.ValuesOf(ServedBy(run, n, fmt), CountKey(l))
  {
    forall i | 0 <= i < |run| ensures Balanced(run[i].page.samples) && Exporter.NotSamples(run[i].page.rest) {
      ShownIsBalanced(run[i].page, histories[i]);
    }
    CellsArePaired(run, run[n].from, fmt, l);
    PairAfterVisit(run, n, fmt, l);
  }

  // ---------------------------------------------------------------------
  // A page lists every series once, so a scrape is a map from series to raw value.

  function PrintedKey(kind: Exporter.Kind, ls: seq<Label>): string { Exporter.SeriesKey(kind, Block(ls)) }

  lemma PrintedKeysInjective(k1: Exporter.Kind, a: seq<Label>, k2: Exporter.Kind, b: seq<Label>)
    requires GoodNames(a) && GoodNames(b) && PrintedKey(k1, a) == PrintedKey(k2, b)
    ensures k1 == k2 && a == b
  {
    Exporter.SeriesKeysInjective(k1, Block(a), k2, Block(b));
    BlocksInjective(a, b);
  }

  function WithLe(k: WaitKey, bound: string): seq<Label> { WaitLabels(k) + [Label("le", bound)] }

  lemma {:induction false} BlockAppend(ls: seq<Label>, l: Label)
    requires ls != []
    ensures Block(ls + [l]) == Block(ls) + "," + Pair(l)
  {
    if |ls| == 1 {
      assert (ls + [l])[1..] == [l];
    } else {
      assert (ls + [l])[1..] == ls[1..] + [l];
      BlockAppend(ls[1..], l);
      assert Block(ls + [l]) == Pair(ls[0]) + "," + (Block(ls[1..]) + "," + Pair(l));
    }
  }

  lemma LeIsALabel(k: WaitKey, bound: string)
    requires Plain(bound)
    ensures Block(WaitLabels(k)) + Le(bound) == Block(WithLe(k, bound))
  {
    var l := Label("le", bound);
    BlockAppend(WaitLabels(k), l);
    LePair(bound);
    Regroup(Block(WaitLabels(k)), ",", Pair(l));
  }

  lemma LePair(bound: string)
    requires Plain(bound)
    ensures "," + Pair(Label("le", bound)) == Le(bound)
  {
    assert ",le=\"" == "," + ("le" + "=\"");
  }

  lemma Regroup(a: string, b: string, c: string)
    ensures a + b + c == a + (b + c)
  {}

  lemma NamesAreGood()
    ensures GoodName("alias") && GoodName("provider") && GoodName("model") && GoodName("outcome")
    ensures GoodName("phase") && GoodName("streaming") && GoodName("le")
  {}

  lemma GoodAttemptLabels(a: AttemptKey)
    ensures GoodNames(AttemptLabels(a))
  { NamesAreGood(); }

  lemma GoodWaitLabels(k: WaitKey, bound: string)
    ensures GoodNames(WaitLabels(k)) && GoodNames(WithLe(k, bound))
  { NamesAreGood(); }

  lemma AttemptLabelsInjective(a: AttemptKey, b: AttemptKey)
    requires AttemptLabels(a) == AttemptLabels(b)
    ensures a == b
  {
    var x, y := AttemptLabels(a), AttemptLabels(b);
    assert x[0] == y[0] && x[1] == y[1] && x[2] == y[2] && x[3] == y[3] && x[4] == y[4] && x[5] == y[5];
  }

  lemma WaitLabelsInjective(a: WaitKey, b: WaitKey)
    requires WaitLabels(a) == WaitLabels(b)
    ensures a == b
  {
    var x, y := WaitLabels(a), WaitLabels(b);
    assert x[0] == y[0] && x[1] == y[1] && x[2] == y[2] && x[3] == y[3];
  }

  predicate DistinctAttempts(attempts: seq<(AttemptKey, nat)>) {
    forall i, j :: 0 <= i < j < |attempts| ==> attempts[i].0 != attempts[j].0
  }

  predicate DistinctSamples(samples: seq<Ledger.Sample>) {
    forall i, j :: 0 <= i < j < |samples| ==> samples[i].key != samples[j].key
  }

  function AttemptSeries(k: AttemptKey): string { PrintedKey(Exporter.AttemptCounter, AttemptLabels(k)) }

  function SeriesOf(attempts: seq<(AttemptKey, nat)>): (ks: seq<string>)
    ensures |ks| == |attempts| && forall i :: 0 <= i < |ks| ==> ks[i] == AttemptSeries(attempts[i].0)
  {
    seq(|attempts|, i requires 0 <= i < |attempts| => AttemptSeries(attempts[i].0))
  }

  ghost predicate AttemptOwns(attempts: seq<(AttemptKey, nat)>, k: string) { k in SeriesOf(attempts) }

  lemma AttemptRaws(a: AttemptKey, n: nat, k: string)
    ensures Exporter.RawsOf([AttemptLine(a, n)], k)
            == if k == AttemptSeries(a) then [n as real] else []
  {
    PrintedSampleReadsBack(Exporter.AttemptCounter, Block(AttemptLabels(a)), n);
    RawsOne(AttemptLine(a, n), k);
  }

  lemma {:induction false} AttemptsOnce(attempts: seq<(AttemptKey, nat)>, k: string)
    requires DistinctAttempts(attempts)
    ensures |Exporter.RawsOf(AttemptLines(attempts), k)| <= 1
    ensures Exporter.RawsOf(AttemptLines(attempts), k) != [] ==> AttemptOwns(attempts, k)
  {
    if attempts == [] {
    } else {
      var front, a := attempts[..|attempts|-1], attempts[|attempts|-1];
      AttemptsOnce(front, k);
      RawsConcat(AttemptLines(front), [AttemptLine(a.0, a.1)], k);
      AttemptRaws(a.0, a.1, k);
      OwnsAppend(attempts, k);
    }
  }

  /** With distinct keys, a series of the last row belongs to no earlier row. */
  lemma OwnsAppend(attempts: seq<(AttemptKey, nat)>, k: string)
    requires attempts != [] && DistinctAttempts(attempts)
    ensures var front, last := attempts[..|attempts|-1], AttemptSeries(attempts[|attempts|-1].0);
            && (AttemptOwns(attempts, k) <==> AttemptOwns(front, k) || k == last)
            && !(AttemptOwns(front, k) && k == last)
  {
    var front, last := attempts[..|attempts|-1], attempts[|attempts|-1].0;
    assert SeriesOf(attempts) == SeriesOf(front) + [AttemptSeries(last)];
    if AttemptSeries(last) in SeriesOf(front) {
      var i :| 0 <= i < |front| && SeriesOf(front)[i] == AttemptSeries(last);
      SameAttempt(attempts[i].0, last);
    }
  }

  lemma SameAttempt(a: AttemptKey, b: AttemptKey)
    requires AttemptSeries(a) == AttemptSeries(b)
    ensures a == b
  {
    GoodAttemptLabels(a);
    GoodAttemptLabels(b);
    PrintedKeysInjective(Exporter.AttemptCounter, AttemptLabels(a), Exporter.AttemptCounter, AttemptLabels(b));
    AttemptLabelsInjective(a, b);
  }

  /** The series that belong to one histogram. */
  ghost predicate Owned(key: WaitKey, k: string) {
    || k == PrintedKey(Exporter.HistSum, WaitLabels(key))
    || k == PrintedKey(Exporter.HistCount, WaitLabels(key))
    || exists b :: k == PrintedKey(Exporter.HistBucket, WithLe(key, b))
  }

  lemma BelongsTo(key: WaitKey, k: string) returns (kind: Exporter.Kind, ls: seq<Label>)
    requires Owned(key, k)
    ensures GoodNames(ls) && k == PrintedKey(kind, ls) && !kind.AttemptCounter? && |ls| >= 4
            && ls[..4] == WaitLabels(key)
  {
    GoodWaitLabels(key, "");
    if k == PrintedKey(Exporter.HistSum, WaitLabels(key)) {
      kind, ls := Exporter.HistSum, WaitLabels(key);
    } else if k == PrintedKey(Exporter.HistCount, WaitLabels(key)) {
      kind, ls := Exporter.HistCount, WaitLabels(key);
    } else {
      var b :| k == PrintedKey(Exporter.HistBucket, WithLe(key, b));
      kind, ls := Exporter.HistBucket, WithLe(key, b);
      GoodWaitLabels(key, b);
    }
  }

  lemma OwnedByOne(a: WaitKey, b: WaitKey, k: string)
    requires Owned(a, k) && Owned(b, k)
    ensures a == b
  {
    var k1, x := BelongsTo(a, k);
    var k2, y := BelongsTo(b, k);
    PrintedKeysInjective(k1, x, k2, y);
    WaitLabelsInjective(a, b);
  }

  lemma BucketRaws(key: WaitKey, bound: string, n: nat, k: string)
    requires Plain(bound)
    ensures Exporter.RawsOf([BucketLine(Block(WaitLabels(key)), bound, n)], k)
            == if k == PrintedKey(Exporter.HistBucket, WithLe(key, bound)) then [n as real] else []
  {
    var labels := Block(WaitLabels(key));
    LeIsALabel(key, bound);
    PrintedSampleReadsBack(Exporter.HistBucket, labels + Le(bound), n);
    RawsOne(BucketLine(labels, bound, n), k);
  }

  lemma SameBucket(key: WaitKey, a: string, b: string)
    requires PrintedKey(Exporter.HistBucket, WithLe(key, a)) == PrintedKey(Exporter.HistBucket, WithLe(key, b))
    ensures a == b
  {
    GoodWaitLabels(key, a);
    GoodWaitLabels(key, b);
    PrintedKeysInjective(Exporter.HistBucket, WithLe(key, a), Exporter.HistBucket, WithLe(key, b));
    assert WithLe(key, a)[4] == WithLe(key, b)[4];
  }

  ghost predicate OneOfBuckets(key: WaitKey, k: string) {
    exists j :: 0 <= j < |BOUND_TEXT| && k == PrintedKey(Exporter.HistBucket, WithLe(key, BOUND_TEXT[j]))
  }

  lemma BucketLinesSplit(labels: string, counts: seq<nat>, n: nat, k: string)
    requires 0 < n <= |BOUND_TEXT| && n <= |counts|
    ensures Exporter.RawsOf(BucketLines(labels, counts, n), k)
            == Exporter.RawsOf(BucketLines(labels, counts, n - 1), k)
               + Exporter.RawsOf([BucketLine(labels, BOUND_TEXT[n - 1], counts[n - 1])], k)
  {
    RawsConcat(BucketLines(labels, counts, n - 1), [BucketLine(labels, BOUND_TEXT[n - 1], counts[n - 1])], k);
  }

  function LineRaws(labels: string, counts: seq<nat>, i: nat, k: string): seq<real>
    requires i < |BOUND_TEXT| && i < |counts|
  {
    Exporter.RawsOf([BucketLine(labels, BOUND_TEXT[i], counts[i])], k)
  }

  lemma {:induction false} OnceAmongBuckets(labels: string, counts: seq<nat>, n: nat, k: string)
    requires n <= |BOUND_TEXT| && n <= |counts|
    requires forall i :: 0 <= i < n ==> |LineRaws(labels, counts, i, k)| <= 1
    requires forall i, j :: 0 <= i < j < n ==>
             LineRaws(labels, counts, i, k) == [] || LineRaws(labels, counts, j, k) == []
    ensures |Exporter.RawsOf(BucketLines(labels, counts, n), k)| <= 1
    ensures Exporter.RawsOf(BucketLines(labels, counts, n), k) != [] ==>
              exists i :: 0 <= i < n && LineRaws(labels, counts, i, k) != []
  {
    if n == 0 {
    } else {
      OnceAmongBuckets(labels, counts, n - 1, k);
      BucketLinesSplit(labels, counts, n, k);
      assert Exporter.RawsOf(BucketLines(labels, counts, n), k)
             == Exporter.RawsOf(BucketLines(labels, counts, n - 1), k) + LineRaws(labels, counts, n - 1, k);
    }
  }

  lemma BucketsOnce(key: WaitKey, counts: seq<nat>, k: string)
    requires |counts| == SLOTS
    ensures |Exporter.RawsOf(BucketLines(Block(WaitLabels(key)), counts, |BOUND_TEXT|), k)| <= 1
    ensures Exporter.RawsOf(BucketLines(Block(WaitLabels(key)), counts, |BOUND_TEXT|), k) != [] ==> OneOfBuckets(key, k)
  {
    var labels := Block(WaitLabels(key));
    forall i | 0 <= i < |BOUND_TEXT|
      ensures LineRaws(labels, counts, i, k)
              == if k == PrintedKey(Exporter.HistBucket, WithLe(key, BOUND_TEXT[i])) then [counts[i] as real] else []
    {
      BoundsPlain(i);
      BucketRaws(key, BOUND_TEXT[i], counts[i], k);
    }
    forall i, j | 0 <= i < j < |BOUND_TEXT|
      ensures LineRaws(labels, counts, i, k) == [] || LineRaws(labels, counts, j, k) == []
    {
      BoundsDistinct(i, j);
      if k == PrintedKey(Exporter.HistBucket, WithLe(key, BOUND_TEXT[i]))
         && k == PrintedKey(Exporter.HistBucket, WithLe(key, BOUND_TEXT[j])) {
        SameBucket(key, BOUND_TEXT[i], BOUND_TEXT[j]);
      }
    }
    OnceAmongBuckets(labels, counts, |BOUND_TEXT|, k);
  }

  lemma BoundsPlain(i: nat)
    requires i < |BOUND_TEXT|
    ensures Plain(BOUND_TEXT[i]) && BOUND_TEXT[i] != "+Inf"
  {
    assert IsDigit(BOUND_TEXT[i][0]);
  }

  lemma BoundsDistinct(i: nat, j: nat)
    requires i < j < |BOUND_TEXT|
    ensures BOUND_TEXT[i] != BOUND_TEXT[j]
  {
    assert |BOUND_TEXT[i]| != |BOUND_TEXT[j]| || BOUND_TEXT[i][0] != BOUND_TEXT[j][0];
  }

  lemma SumRaws(key: WaitKey, number: string, k: string)
    requires forall i :: 0 <= i < |number| ==> number[i] != '}'
    ensures var line := SampleLine(Exporter.Head(Exporter.HistSum), Block(WaitLabels(key)), number);
            var raws := Exporter.RawsOf([line], k);
            |raws| <= 1 && (raws != [] ==> k == PrintedKey(Exporter.HistSum, WaitLabels(key)))
  {
    var labels := Block(WaitLabels(key));
    var line := SampleLine(Exporter.Head(Exporter.HistSum), labels, number);
    RawsOne(line, k);
    ReadHead(Exporter.HistSum, labels + "}" + (" " + number));
    LabelsOfMatch(Exporter.Head(Exporter.HistSum), labels, " " + number);
  }

  lemma LabelsOfMatch(head: string, labels: string, u: string)
    requires forall i :: 0 <= i < |u| ==> u[i] != '}'
    ensures var m := MatchLine(head, head + (labels + "}" + u)); m.Match? ==> m.labels == labels
  {
    var s := labels + "}" + u;
    assert (head + s)[|head|..] == s;
    BraceBefore(labels, u);
    assert s[..|labels|] == labels;
  }

  lemma CountRaws(key: WaitKey, n: nat, k: string)
    ensures Exporter.RawsOf([SampleLine(Exporter.Head(Exporter.HistCount), Block(WaitLabels(key)), Digits(n))], k)
            == if k == PrintedKey(Exporter.HistCount, WaitLabels(key)) then [n as real] else []
  {
    PrintedSampleReadsBack(Exporter.HistCount, Block(WaitLabels(key)), n);
    RawsOne(SampleLine(Exporter.Head(Exporter.HistCount), Block(WaitLabels(key)), Digits(n)), k);
  }

  predicate NoBrace(s: string) { forall i :: 0 <= i < |s| ==> s[i] != '}' }

  /** What the four parts of a histogram list of a series. */
  lemma PartsOnce(key: WaitKey, counts: seq<nat>, sumText: string, n: nat, k: string)
    returns (b: seq<real>, i: seq<real>, u: seq<real>, c: seq<real>)
    requires |counts| == SLOTS && NoBrace(sumText)
    ensures Exporter.RawsOf(HistLines(Block(WaitLabels(key)), counts, sumText, n), k) == b + (i + (u + c))
    ensures |b| <= 1 && (b != [] ==> OneOfBuckets(key, k))
    ensures |i| <= 1 && (i != [] ==> k == PrintedKey(Exporter.HistBucket, WithLe(key, "+Inf")))
    ensures |u| <= 1 && (u != [] ==> k == PrintedKey(Exporter.HistSum, WaitLabels(key)))
    ensures |c| <= 1 && (c != [] ==> k == PrintedKey(Exporter.HistCount, WaitLabels(key)))
  {
    b, i, u, c := HistParts(Block(WaitLabels(key)), counts, sumText, n, k);
    BucketsOnce(key, counts, k);
    BucketRaws(key, "+Inf", counts[SLOTS - 1], k);
    SumRaws(key, sumText, k);
    CountRaws(key, n, k);
  }

  lemma HistParts(labels: string, counts: seq<nat>, sumText: string, n: nat, k: string)
    returns (b: seq<real>, i: seq<real>, u: seq<real>, c: seq<real>)
    requires |counts| == SLOTS
    ensures Exporter.RawsOf(HistLines(labels, counts, sumText, n), k) == b + (i + (u + c))
    ensures b == Exporter.RawsOf(BucketLines(labels, counts, |BOUND_TEXT|), k)
    ensures i == Exporter.RawsOf([BucketLine(labels, "+Inf", counts[SLOTS - 1])], k)
    ensures u == Exporter.RawsOf([SampleLine(Exporter.Head(Exporter.HistSum), labels, sumText)], k)
    ensures c == Exporter.RawsOf([SampleLine(Exporter.Head(Exporter.HistCount), labels, Digits(n))], k)
  {
    b := Exporter.RawsOf(BucketLines(labels, counts, |BOUND_TEXT|), k);
    i := Exporter.RawsOf([BucketLine(labels, "+Inf", counts[SLOTS - 1])], k);
    u := Exporter.RawsOf([SampleLine(Exporter.Head(Exporter.HistSum), labels, sumText)], k);
    c := Exporter.RawsOf([SampleLine(Exporter.Head(Exporter.HistCount), labels, Digits(n))], k);
    FourRaws(BucketLines(labels, counts, |BOUND_TEXT|), BucketLine(labels, "+Inf", counts[SLOTS - 1]),
             SampleLine(Exporter.Head(Exporter.HistSum), labels, sumText),
             SampleLine(Exporter.Head(Exporter.HistCount), labels, Digits(n)), k);
  }

  lemma FourRaws(a: seq<string>, x: string, y: string, z: string, k: string)
    ensures Exporter.RawsOf(a + [x, y, z], k)
            == Exporter.RawsOf(a, k) + (Exporter.RawsOf([x], k) + (Exporter.RawsOf([y], k) + Exporter.RawsOf([z], k)))
  {
    assert a + [x, y, z] == a + ([x] + ([y] + [z]));
    RawsConcat(a, [x] + ([y] + [z]), k);
    RawsConcat([x], [y] + [z], k);
    RawsConcat([y], [z], k);
  }

  /** Four listings of which at most one can speak. */
  lemma AtMostOneSpeaks(b: seq<real>, i: seq<real>, s: seq<real>, c: seq<real>, bucket: bool, inf: bool,
                        sum: bool, count: bool)
    requires |b| <= 1 && |i| <= 1 && |s| <= 1 && |c| <= 1
    requires (b != [] ==> bucket) && (i != [] ==> inf) && (s != [] ==> sum) && (c != [] ==> count)
    requires !(sum && count) && !(inf && sum) && !(inf && count) && !(bucket && inf) && !(bucket && sum)
             && !(bucket && count)
    ensures |b + (i + (s + c))| <= 1 && (b + (i + (s + c)) != [] ==> bucket || inf || sum || count)
  {}

  lemma WaitOnce(s: Ledger.Sample, fmt: FloatText, k: string)
    requires |s.cumulative| == SLOTS && NoBrace(fmt(s.sum))
    ensures |Exporter.RawsOf(WaitLines(s, fmt), k)| <= 1
    ensures Exporter.RawsOf(WaitLines(s, fmt), k) != [] ==> Owned(s.key, k)
  {
    var b, i, u, c := PartsOnce(s.key, s.cumulative, fmt(s.sum), s.count, k);
    OneKindEach(s.key, k);
    AtMostOneSpeaks(b, i, u, c,
                    OneOfBuckets(s.key, k), k == PrintedKey(Exporter.HistBucket, WithLe(s.key, "+Inf")),
                    k == PrintedKey(Exporter.HistSum, WaitLabels(s.key)),
                    k == PrintedKey(Exporter.HistCount, WaitLabels(s.key)));
  }

  /** No series of a histogram is both a bucket, a sum and a count, nor two different buckets. */
  lemma OneKindEach(key: WaitKey, k: string)
    ensures var inf, sum, count, bucket :=
              k == PrintedKey(Exporter.HistBucket, WithLe(key, "+Inf")),
              k == PrintedKey(Exporter.HistSum, WaitLabels(key)),
              k == PrintedKey(Exporter.HistCount, WaitLabels(key)), OneOfBuckets(key, k);
            && !(sum && count) && !(inf && sum) && !(inf && count) && !(bucket && inf) && !(bucket && sum)
               && !(bucket && count)
            && (inf || bucket || sum || count ==> Owned(key, k))
  {
    var l := WaitLabels(key);
    KindsDiffer(Exporter.HistSum, l, Exporter.HistCount, l);
    KindsDiffer(Exporter.HistBucket, WithLe(key, "+Inf"), Exporter.HistSum, l);
    KindsDiffer(Exporter.HistBucket, WithLe(key, "+Inf"), Exporter.HistCount, l);
    if OneOfBuckets(key, k) {
      var j :| 0 <= j < |BOUND_TEXT| && k == PrintedKey(Exporter.HistBucket, WithLe(key, BOUND_TEXT[j]));
      BoundsPlain(j);
      KindsDiffer(Exporter.HistBucket, WithLe(key, BOUND_TEXT[j]), Exporter.HistSum, l);
      KindsDiffer(Exporter.HistBucket, WithLe(key, BOUND_TEXT[j]), Exporter.HistCount, l);
      if k == PrintedKey(Exporter.HistBucket, WithLe(key, "+Inf")) { SameBucket(key, BOUND_TEXT[j], "+Inf"); }
    }
  }

  lemma KindsDiffer(k1: Exporter.Kind, a: seq<Label>, k2: Exporter.Kind, b: seq<Label>)
    requires k1 != k2
    ensures PrintedKey(k1, a) != PrintedKey(k2, b)
  {
    Exporter.SeriesKeysInjective(k1, Block(a), k2, Block(b));
  }

  lemma {:induction false} WaitsOnce(samples: seq<Ledger.Sample>, fmt: FloatText, k: string)
    requires Shaped(samples) && DistinctSamples(samples) && forall x :: NoBrace(fmt(x))
    ensures var raws := Exporter.RawsOf(AllWaitLines(samples, fmt), k);
            |raws| <= 1 && (raws != [] ==> exists i :: 0 <= i < |samples| && Owned(samples[i].key, k))
  {
    if samples == [] {
    } else {
      var front, s := samples[..|samples|-1], samples[|samples|-1];
      WaitsOnce(front, fmt, k);
      WaitOnce(s, fmt, k);
      RawsConcat(AllWaitLines(front, fmt), WaitLines(s, fmt), k);
      if i :| 0 <= i < |front| && Owned(front[i].key, k) {
        assert samples[i] == front[i];
        if Owned(s.key, k) {
          OwnedByOne(front[i].key, s.key, k);
          assert false;
        }
      }
    }
  }

  /** In what the server prints, with one line per attempt key and one histogram per wait key,
      no series occurs twice: a scrape is a map, as the exporter protocol takes it to be. */
  lemma EachSeriesListedOnce(p: Page, fmt: FloatText, k: string)
    requires p.Valid() && DistinctAttempts(p.attempts) && DistinctSamples(p.samples) && Exporter.NotSamples(p.rest)
    requires forall x :: NoBrace(fmt(x))
    ensures |Exporter.RawsOf(p.Lines(fmt), k)| <= 1
  {
    var header := if |p.samples| > 0 then WAIT_HEADER else [];
    var attempts, waits := AttemptLines(p.attempts), AllWaitLines(p.samples, fmt);
    AttemptsOnce(p.attempts, k);
    WaitsOnce(p.samples, fmt, k);
    HeadersSilent(k);
    NoRaws(p.rest, k);
    RawsConcat(ATTEMPT_HEADER + attempts + header + waits, p.rest, k);
    RawsConcat(ATTEMPT_HEADER + attempts + header, waits, k);
    RawsConcat(ATTEMPT_HEADER + attempts, header, k);
    RawsConcat(ATTEMPT_HEADER, attempts, k);
    forall i | 0 <= i < |p.samples| && Owned(p.samples[i].key, k) ensures !AttemptOwns(p.attempts, k) {
      NotAnAttempt(p.samples[i].key, k);
    }
  }

  /** Taking in a page line by line is the exporter protocol's one-step observation of a map,
      and each series is served its new cell's value. */
  lemma PageIsOneObservation(p: Page, fmt: FloatText, m: Exporter.Memory, k: string)
    requires p.Valid() && DistinctAttempts(p.attempts) && DistinctSamples(p.samples)
             && Exporter.NotSamples(p.rest) && p.Safe()
    requires forall x :: NoBrace(fmt(x)) && OneLine(fmt(x))
    ensures var lines := SplitLines(p.Body(fmt));
            var body := Exporter.BodyOf(lines);
            var seen := Exporter.ObserveAll(m, body);
            && Exporter.CellAt(Exporter.Transform(m, lines).0, k) == Exporter.CellAt(seen, k)
            && Exporter.ValuesOf(Exporter.Transform(m, lines).1, k)
               == if k in body then [Exporter.CellAt(seen, k).Served()] else []
  {
    BodyArrives(p, fmt);
    var lines := p.Lines(fmt);
    forall j ensures |Exporter.RawsOf(lines, j)| <= 1 { EachSeriesListedOnce(p, fmt, j); }
    Exporter.ListedOnceIsAMap(lines);
    Exporter.TransformIsObserveAll(m, lines, Exporter.BodyOf(lines), k);
  }

  lemma NotAnAttempt(w: WaitKey, k: string)
    requires Owned(w, k)
    ensures forall ls :: k != PrintedKey(Exporter.AttemptCounter, ls)
  {
    var kind, own := BelongsTo(w, k);
    forall ls ensures k != PrintedKey(Exporter.AttemptCounter, ls) {
      KindsDiffer(kind, own, Exporter.AttemptCounter, ls);
    }
  }
}
