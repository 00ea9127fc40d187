/** Served histogram buckets across restarts: in order of their bounds for as long as a reset
    seen at one bound is also seen at every larger one. */
module BucketOrder {
  import opened Decimal
  import opened Counter
  import opened LedgerHistory
  import opened Exposition
  import opened Metrics
  import opened Pipeline
  import Ledger
  import Exporter

  function BoundAt(i: nat): string
    requires i < SLOTS
  {
    if i < |BOUND_TEXT| then BOUND_TEXT[i] else "+Inf"
  }

  function BucketKey(w: WaitKey, i: nat): string
    requires i < SLOTS
  {
    PrintedKey(Exporter.HistBucket, WithLe(w, BoundAt(i)))
  }

  lemma BucketIsOwned(w: WaitKey, i: nat)
    requires i < SLOTS
    ensures Owned(w, BucketKey(w, i))
  {}

  // ---------------------------------------------------------------------
  // What a page lists for one bucket.

  lemma WaitLineAt(s: Ledger.Sample, fmt: FloatText, i: nat)
    requires |s.cumulative| == SLOTS && i < SLOTS
    ensures |WaitLines(s, fmt)| > i
    ensures WaitLines(s, fmt)[i] == BucketLine(Block(WaitLabels(s.key)), BoundAt(i), s.cumulative[i])
  {
    HistLineAt(Block(WaitLabels(s.key)), s.cumulative, fmt(s.sum), s.count, i);
  }

  lemma HistLineAt(labels: string, counts: seq<nat>, sumText: string, n: nat, i: nat)
    requires |counts| == SLOTS && i < SLOTS
    ensures |HistLines(labels, counts, sumText, n)| > i
    ensures HistLines(labels, counts, sumText, n)[i] == BucketLine(labels, BoundAt(i), counts[i])
  {
    if i < |BOUND_TEXT| {
      BoundedLineAt(labels, counts, sumText, n, i);
    } else {
      assert i == |BOUND_TEXT| == |counts| - 1;
      InfLineAt(labels, counts, sumText, n);
    }
  }

  lemma BoundedLineAt(labels: string, counts: seq<nat>, sumText: string, n: nat, i: nat)
    requires |counts| == SLOTS && i < |BOUND_TEXT|
    ensures |HistLines(labels, counts, sumText, n)| > i
    ensures HistLines(labels, counts, sumText, n)[i] == BucketLine(labels, BOUND_TEXT[i], counts[i])
  {
    BucketLineAt(labels, counts, |BOUND_TEXT|, i);
    PieceAt(BucketLines(labels, counts, |BOUND_TEXT|), BucketLine(labels, "+Inf", counts[|counts| - 1]),
            SampleLine(Exporter.Head(Exporter.HistSum), labels, sumText),
            SampleLine(Exporter.Head(Exporter.HistCount), labels, Digits(n)), i);
  }

  lemma InfLineAt(labels: string, counts: seq<nat>, sumText: string, n: nat)
    requires |counts| == SLOTS
    ensures |HistLines(labels, counts, sumText, n)| > |BOUND_TEXT|
    ensures HistLines(labels, counts, sumText, n)[|BOUND_TEXT|] == BucketLine(labels, "+Inf", counts[|counts| - 1])
  {
    BucketLineAt(labels, counts, |BOUND_TEXT|, 0);
    PieceAt(BucketLines(labels, counts, |BOUND_TEXT|), BucketLine(labels, "+Inf", counts[|counts| - 1]),
            SampleLine(Exporter.Head(Exporter.HistSum), labels, sumText),
            SampleLine(Exporter.Head(Exporter.HistCount), labels, Digits(n)), |BOUND_TEXT|);
  }

  lemma PieceAt(a: seq<string>, x: string, y: string, z: string, i: nat)
    requires i <= |a|
    ensures |a + [x, y, z]| == |a| + 3 && (a + [x, y, z])[i] == if i < |a| then a[i] else x
  {}

  /** A sample line is among the raw values of its series. */
  lemma {:induction false} ListedRaw(lines: seq<string>, j: nat, k: string)
    requires j < |lines| && Exporter.Read(lines[j]).Sample?
    requires var r := Exporter.Read(lines[j]); Exporter.SeriesKey(r.kind, r.labels) == k
    ensures Exporter.Read(lines[j]).raw in Exporter.RawsOf(lines, k)
  {
    if j == |lines| - 1 {
    } else {
      ListedRaw(lines[..|lines|-1], j, k);
    }
  }

  lemma BoundIsPlain(i: nat)
    requires i < SLOTS
    ensures Plain(BoundAt(i))
  {
    if i < |BOUND_TEXT| { BoundsPlain(i); }
  }

  lemma OwnBucket(s: Ledger.Sample, fmt: FloatText, i: nat)
    requires |s.cumulative| == SLOTS && i < SLOTS && NoBrace(fmt(s.sum))
    ensures Exporter.RawsOf(WaitLines(s, fmt), BucketKey(s.key, i)) == [s.cumulative[i] as real]
  {
    WaitLineAt(s, fmt, i);
    BucketReads(s.key, i, s.cumulative[i]);
    ListedRaw(WaitLines(s, fmt), i, BucketKey(s.key, i));
    WaitOnce(s, fmt, BucketKey(s.key, i));
    OnlyOne(Exporter.RawsOf(WaitLines(s, fmt), BucketKey(s.key, i)), s.cumulative[i] as real);
  }

  lemma OnlyOne(s: seq<real>, x: real)
    requires |s| <= 1 && x in s
    ensures s == [x]
  {}

  lemma BucketReads(w: WaitKey, i: nat, n: nat)
    requires i < SLOTS
    ensures var r := Exporter.Read(BucketLine(Block(WaitLabels(w)), BoundAt(i), n));
            r.Sample? && r.raw == n as real && Exporter.SeriesKey(r.kind, r.labels) == BucketKey(w, i)
  {
    BoundIsPlain(i);
    LeIsALabel(w, BoundAt(i));
    PrintedSampleReadsBack(Exporter.HistBucket, Block(WaitLabels(w)) + Le(BoundAt(i)), n);
  }

  lemma ForeignBucket(s: Ledger.Sample, fmt: FloatText, w: WaitKey, i: nat)
    requires |s.cumulative| == SLOTS && i < SLOTS && NoBrace(fmt(s.sum)) && w != s.key
    ensures Exporter.RawsOf(WaitLines(s, fmt), BucketKey(w, i)) == []
  {
    WaitOnce(s, fmt, BucketKey(w, i));
    BucketIsOwned(w, i);
    if Exporter.RawsOf(WaitLines(s, fmt), BucketKey(w, i)) != [] { OwnedByOne(s.key, w, BucketKey(w, i)); }
  }

  /** The counts the samples hold for one bucket. */
  function CountsAt(samples: seq<Ledger.Sample>, w: WaitKey, i: nat): seq<real>
    requires Shaped(samples) && i < SLOTS
  {
    if samples == [] then []
    else
      var s := samples[|samples|-1];
      CountsAt(samples[..|samples|-1], w, i) + if s.key == w then [s.cumulative[i] as real] else []
  }

  lemma {:induction false} WaitsListCounts(samples: seq<Ledger.Sample>, fmt: FloatText, w: WaitKey, i: nat)
    requires Shaped(samples) && i < SLOTS && forall x :: NoBrace(fmt(x))
    ensures Exporter.RawsOf(AllWaitLines(samples, fmt), BucketKey(w, i)) == CountsAt(samples, w, i)
  {
    if samples == [] {
    } else {
      var front, s := samples[..|samples|-1], samples[|samples|-1];
      WaitsListCounts(front, fmt, w, i);
      RawsConcat(AllWaitLines(front, fmt), WaitLines(s, fmt), BucketKey(w, i));
      if s.key == w { OwnBucket(s, fmt, i); } else { ForeignBucket(s, fmt, w, i); }
    }
  }

  lemma PageListsCounts(p: Page, fmt: FloatText, w: WaitKey, i: nat)
    requires p.Valid() && i < SLOTS && DistinctAttempts(p.attempts) && Exporter.NotSamples(p.rest)
             && forall x :: NoBrace(fmt(x))
    ensures Exporter.RawsOf(p.Lines(fmt), BucketKey(w, i)) == CountsAt(p.samples, w, i)
  {
    var k := BucketKey(w, i);
    var header := if |p.samples| > 0 then WAIT_HEADER else [];
    WaitsListCounts(p.samples, fmt, w, i);
    AttemptsOnce(p.attempts, k);
    BucketIsOwned(w, i);
    NotAnAttempt(w, k);
    HeadersSilent(k);
    NoRaws(p.rest, k);
    OnlyOneSpeaks(ATTEMPT_HEADER, AttemptLines(p.attempts), header, AllWaitLines(p.samples, fmt), p.rest, k);
  }

  // ---------------------------------------------------------------------
  // The counts of a ledger increase with the bound.

  lemma {:induction false} CountsIncrease(es: seq<Entry>, w: WaitKey, i: nat, j: nat)
    requires i <= j < SLOTS
    ensures Running(HistOf(es, w).counts, i) <= Running(HistOf(es, w).counts, j)
  {
    if i == j {
    } else {
      CountsIncrease(es, w, i, j - 1);
      CumulativeIsExact(es, w, j);
    }
  }

  predicate InOrder(a: seq<real>, b: seq<real>) { |a| == |b| && forall n :: 0 <= n < |a| ==> 0.0 <= a[n] <= b[n] }

  lemma {:induction false} CountsInOrder(samples: seq<Ledger.Sample>, es: seq<Entry>, w: WaitKey, i: nat, j: nat)
    requires Shaped(samples) && i <= j < SLOTS
    requires forall m :: 0 <= m < |samples| ==> samples[m] == Ledger.SampleOf(es, samples[m].key)
    ensures InOrder(CountsAt(samples, w, i), CountsAt(samples, w, j))
  {
    if samples == [] {
    } else {
      var s := samples[|samples|-1];
      CountsInOrder(samples[..|samples|-1], es, w, i, j);
      CountsIncrease(es, s.key, i, j);
    }
  }

  lemma {:induction false} CountsAtMostOnce(samples: seq<Ledger.Sample>, w: WaitKey, i: nat)
    requires Shaped(samples) && DistinctSamples(samples) && i < SLOTS
    ensures |CountsAt(samples, w, i)| <= 1
    ensures CountsAt(samples, w, i) != [] ==> exists m :: 0 <= m < |samples| && samples[m].key == w
  {
    if samples == [] {
    } else {
      var front := samples[..|samples|-1];
      CountsAtMostOnce(front, w, i);
      if m :| 0 <= m < |front| && front[m].key == w { assert samples[m].key == w; }
    }
  }

  // ---------------------------------------------------------------------
  // Runs

  /** A page fit for this argument: it shows the ledger with history `es`, one row per key, in
      lines that survive the transport. */
  predicate Fit(p: Page, es: seq<Entry>) {
    p.Valid() && Shows(p, es) && DistinctAttempts(p.attempts) && DistinctSamples(p.samples) && p.Safe()
  }

  ghost predicate FitRun(run: seq<Visit>, histories: seq<seq<Entry>>, fmt: FloatText) {
    && ValidRun(run) && |histories| == |run|
    && (forall n :: 0 <= n < |run| ==> Fit(run[n].page, histories[n]))
    && (forall x :: NoBrace(fmt(x)) && OneLine(fmt(x)))
  }

  function CellOf(run: seq<Visit>, n: nat, fmt: FloatText, w: WaitKey, i: nat): Cell
    requires ValidRun(run) && n <= |run| && i < SLOTS
  {
    Exporter.CellAt(MemoryAfter(run, n, fmt), BucketKey(w, i))
  }

  /** The raw value a visit takes in for bucket i, if any. */
  function TakenAt(v: Visit, fmt: FloatText, w: WaitKey, i: nat): seq<real>
    requires v.page.Valid() && i < SLOTS
  {
    Exporter.RawsOf(Taken(v, fmt), BucketKey(w, i))
  }

  /** At the n-th scrape both buckets are taken in or neither, and a reset seen by bucket i is
      also seen by bucket j. */
  predicate ResetsAgreeAt(run: seq<Visit>, n: nat, fmt: FloatText, w: WaitKey, i: nat, j: nat)
    requires ValidRun(run) && n < |run| && i < SLOTS && j < SLOTS
  {
    var x, y := TakenAt(run[n], fmt, w, i), TakenAt(run[n], fmt, w, j);
    && (run[n].stop.Some? ==> |x| == |y|)
    && (|x| == 1 && |y| == 1 && Reset(CellOf(run, run[n].from, fmt, w, i), x[0])
        ==> Reset(CellOf(run, run[n].from, fmt, w, j), y[0]))
  }

  predicate ResetsAgree(run: seq<Visit>, fmt: FloatText, w: WaitKey, i: nat, j: nat)
    requires ValidRun(run) && i < SLOTS && j < SLOTS
  {
    forall n :: 0 <= n < |run| ==> ResetsAgreeAt(run, n, fmt, w, i, j)
  }

  lemma OrderedListing(a: Cell, x: seq<real>, b: Cell, y: seq<real>)
    requires OrderedCells(a, b) && |x| <= 1 && InOrder(x, y) && (x != [] && Reset(a, x[0]) ==> Reset(b, y[0]))
    ensures OrderedCells(Exporter.After(a, x), Exporter.After(b, y)) && InOrder(ServedOf(a, x), ServedOf(b, y))
  {
    if x != [] { OrderedStep(a, x[0], b, y[0]); }
  }

  /** One scrape steps the cell of each bucket by what it takes in, and serves it. */
  lemma ScrapeSteps(run: seq<Visit>, histories: seq<seq<Entry>>, n: nat, fmt: FloatText, w: WaitKey, i: nat)
    requires FitRun(run, histories, fmt) && n < |run| && i < SLOTS
    ensures var c, x := CellOf(run, run[n].from, fmt, w, i), TakenAt(run[n], fmt, w, i);
            var all := CountsAt(run[n].page.samples, w, i);
            && |x| <= 1 && (x == [] || x == all) && (run[n].stop.None? ==> x == all)
            && CellOf(run, n + 1, fmt, w, i) == Exporter.After(c, x)
            && Exporter.ValuesOf(ServedBy(run, n, fmt), BucketKey(w, i))
               == if run[n].stop.Some? then [] else ServedOf(c, x)
  {
    var v := run[n];
    PageListsCounts(v.page, fmt, w, i);
    CountsAtMostOnce(v.page.samples, w, i);
    TakenRaws(v, fmt, BucketKey(w, i));
    VisitSteps(run, n, fmt, BucketKey(w, i));
  }

  lemma TakenInOrder(run: seq<Visit>, histories: seq<seq<Entry>>, n: nat, fmt: FloatText, w: WaitKey, i: nat, j: nat)
    requires FitRun(run, histories, fmt) && n < |run| && i <= j < SLOTS
    requires run[n].stop.Some? ==> |TakenAt(run[n], fmt, w, i)| == |TakenAt(run[n], fmt, w, j)|
    ensures InOrder(TakenAt(run[n], fmt, w, i), TakenAt(run[n], fmt, w, j))
  {
    ScrapeSteps(run, histories, n, fmt, w, i);
    ScrapeSteps(run, histories, n, fmt, w, j);
    CountsInOrder(run[n].page.samples, histories[n], w, i, j);
  }

  lemma OrderAfterScrape(run: seq<Visit>, histories: seq<seq<Entry>>, n: nat, fmt: FloatText,
                         w: WaitKey, i: nat, j: nat)
    requires FitRun(run, histories, fmt) && n < |run| && i <= j < SLOTS
    ensures ResetsAgreeAt(run, n, fmt, w, i, j)
            && OrderedCells(CellOf(run, run[n].from, fmt, w, i), CellOf(run, run[n].from, fmt, w, j))
            ==> && OrderedCells(CellOf(run, n + 1, fmt, w, i), CellOf(run, n + 1, fmt, w, j))
                && InOrder(Exporter.ValuesOf(ServedBy(run, n, fmt), BucketKey(w, i)),
                           Exporter.ValuesOf(ServedBy(run, n, fmt), BucketKey(w, j)))
  {
    var a, b := CellOf(run, run[n].from, fmt, w, i), CellOf(run, run[n].from, fmt, w, j);
    if ResetsAgreeAt(run, n, fmt, w, i, j) && OrderedCells(a, b) {
      ScrapeSteps(run, histories, n, fmt, w, i);
      ScrapeSteps(run, histories, n, fmt, w, j);
      TakenInOrder(run, histories, n, fmt, w, i, j);
      OrderedListing(a, TakenAt(run[n], fmt, w, i), b, TakenAt(run[n], fmt, w, j));
    }
  }

  predicate OrderedAt(run: seq<Visit>, n: nat, fmt: FloatText, w: WaitKey, i: nat, j: nat)
    requires ValidRun(run) && n <= |run| && i < SLOTS && j < SLOTS
  {
    OrderedCells(CellOf(run, n, fmt, w, i), CellOf(run, n, fmt, w, j))
  }

  function OrderedAlong(run: seq<Visit>, fmt: FloatText, w: WaitKey, i: nat, j: nat): (ok: seq<bool>)
    requires ValidRun(run) && i < SLOTS && j < SLOTS
    ensures |ok| == |run| + 1 && forall m :: 0 <= m <= |run| ==> ok[m] == OrderedAt(run, m, fmt, w, i, j)
  {
    seq(|run| + 1, m requires 0 <= m <= |run| => OrderedAt(run, m, fmt, w, i, j))
  }

  lemma CellsStayOrdered(run: seq<Visit>, histories: seq<seq<Entry>>, n: nat, fmt: FloatText,
                         w: WaitKey, i: nat, j: nat)
    requires FitRun(run, histories, fmt) && n <= |run| && i <= j < SLOTS && ResetsAgree(run, fmt, w, i, j)
    ensures OrderedAt(run, n, fmt, w, i, j)
  {
    var ok := OrderedAlong(run, fmt, w, i, j);
    forall m | 0 <= m < |run| && ok[run[m].from] ensures ok[m + 1] {
      AgreeAt(run, m, fmt, w, i, j);
      OrderAfterScrape(run, histories, m, fmt, w, i, j);
    }
    CellAtStart(run, fmt, w, i);
    CellAtStart(run, fmt, w, j);
    HoldsAlong(run, ok, n);
  }

  lemma CellAtStart(run: seq<Visit>, fmt: FloatText, w: WaitKey, i: nat)
    requires ValidRun(run) && i < SLOTS
    ensures CellOf(run, 0, fmt, w, i) == START
  {}

  lemma AgreeAt(run: seq<Visit>, n: nat, fmt: FloatText, w: WaitKey, i: nat, j: nat)
    requires ValidRun(run) && i < SLOTS && j < SLOTS && n < |run| && ResetsAgree(run, fmt, w, i, j)
    ensures ResetsAgreeAt(run, n, fmt, w, i, j)
  {}

  /** After every scrape of every run, across server and exporter restarts: two buckets of one
      histogram are served together, the lower bound never above the higher, provided that no
      scrape shows a reset at the lower bound without one at the higher or stops between them. */
  lemma BucketsServedInOrder(run: seq<Visit>, histories: seq<seq<Entry>>, n: nat, fmt: FloatText,
                             w: WaitKey, i: nat, j: nat)
    requires FitRun(run, histories, fmt) && n < |run| && i <= j < SLOTS && ResetsAgree(run, fmt, w, i, j)
    ensures InOrder(Exporter.ValuesOf(ServedBy(run, n, fmt), BucketKey(w, i)),
                    Exporter.ValuesOf(ServedBy(run, n, fmt), BucketKey(w, j)))
  {
    CellsStayOrdered(run, histories, run[n].from, fmt, w, i, j);
    AgreeAt(run, n, fmt, w, i, j);
    OrderAfterScrape(run, histories, n, fmt, w, i, j);
  }
}
