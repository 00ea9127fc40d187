/** The served attempt counters against the events recorded in all lives of the server. */
module Incarnations {
  import opened Counting
  import opened Counter
  import opened LedgerHistory
  import opened Exposition
  import opened Metrics
  import opened Pipeline
  import Exporter
  import AccountMetrics
  import BucketOrder
  import ServerPage

  // ---------------------------------------------------------------------
  // What a page lists for one attempt counter.

  lemma ListedAttempt(attempts: seq<(AttemptKey, nat)>, j: nat)
    requires DistinctAttempts(attempts) && j < |attempts|
    ensures Exporter.RawsOf(AttemptLines(attempts), AttemptSeries(attempts[j].0)) == [attempts[j].1 as real]
  {
    var (k, n) := attempts[j];
    AttemptLineAt(attempts, j);
    PrintedSampleReadsBack(Exporter.AttemptCounter, Block(AttemptLabels(k)), n);
    BucketOrder.ListedRaw(AttemptLines(attempts), j, AttemptSeries(k));
    AttemptsOnce(attempts, AttemptSeries(k));
    BucketOrder.OnlyOne(Exporter.RawsOf(AttemptLines(attempts), AttemptSeries(k)), n as real);
  }

  lemma {:induction false} UnlistedAttempt(attempts: seq<(AttemptKey, nat)>, k: AttemptKey)
    requires DistinctAttempts(attempts) && forall j :: 0 <= j < |attempts| ==> attempts[j].0 != k
    ensures Exporter.RawsOf(AttemptLines(attempts), AttemptSeries(k)) == []
  {
    AttemptsOnce(attempts, AttemptSeries(k));
    forall j | 0 <= j < |attempts| ensures SeriesOf(attempts)[j] != AttemptSeries(k) {
      if AttemptSeries(attempts[j].0) == AttemptSeries(k) { SameAttempt(attempts[j].0, k); }
    }
  }

  /** The number of events of a key, listed only if there is one. */
  function Listing(es: seq<Entry>, k: AttemptKey): seq<real> {
    if k in AttemptKeys(es) then [CountIf(es, AttemptIs(k)) as real] else []
  }

  lemma AttemptsListCounts(attempts: seq<(AttemptKey, nat)>, es: seq<Entry>, k: AttemptKey)
    requires multiset(attempts) == multiset(AttemptCounts(es).Items) && DistinctAttempts(attempts)
    ensures Exporter.RawsOf(AttemptLines(attempts), AttemptSeries(k)) == Listing(es, k)
  {
    var m := AttemptCounts(es);
    AttemptCountsCount(es);
    if k in m {
      assert (k, m[k]) in m.Items;
      assert (k, m[k]) in multiset(attempts);
      var j :| 0 <= j < |attempts| && attempts[j] == (k, m[k]);
      ListedAttempt(attempts, j);
    } else {
      forall j | 0 <= j < |attempts| ensures attempts[j].0 != k {
        assert attempts[j] in multiset(attempts);
        assert attempts[j] in m.Items;
      }
      UnlistedAttempt(attempts, k);
    }
  }

  lemma OnlySecondSpeaks(a: seq<string>, b: seq<string>, c: seq<string>, d: seq<string>, e: seq<string>, k: string)
    requires Exporter.RawsOf(a, k) == [] && Exporter.RawsOf(c, k) == []
    requires Exporter.RawsOf(d, k) == [] && Exporter.RawsOf(e, k) == []
    ensures Exporter.RawsOf(a + b + c + d + e, k) == Exporter.RawsOf(b, k)
  {
    RawsConcat(a + b + c + d, e, k);
    RawsConcat(a + b + c, d, k);
    RawsConcat(a + b, c, k);
    RawsConcat(a, b, k);
  }

  /** A page lists the number of events of a key, once, and nothing for a key without events. */
  lemma PageListsAttempts(p: Page, es: seq<Entry>, fmt: FloatText, k: AttemptKey)
    requires p.Valid() && multiset(p.attempts) == multiset(AttemptCounts(es).Items) && DistinctAttempts(p.attempts)
    requires DistinctSamples(p.samples) && Exporter.NotSamples(p.rest) && forall x :: NoBrace(fmt(x))
    ensures Exporter.RawsOf(p.Lines(fmt), AttemptSeries(k)) == Listing(es, k)
  {
    var header := if |p.samples| > 0 then WAIT_HEADER else [];
    AttemptsListCounts(p.attempts, es, k);
    WaitsOnce(p.samples, fmt, AttemptSeries(k));
    forall i | 0 <= i < |p.samples| && Owned(p.samples[i].key, AttemptSeries(k)) ensures false {
      NotAnAttempt(p.samples[i].key, AttemptSeries(k));
      assert false;
    }
    HeadersSilent(AttemptSeries(k));
    NoRaws(p.rest, AttemptSeries(k));
    OnlySecondSpeaks(ATTEMPT_HEADER, AttemptLines(p.attempts), header, AllWaitLines(p.samples, fmt), p.rest,
                     AttemptSeries(k));
  }

  // ---------------------------------------------------------------------
  // Lives of the server

  /** When a page is fetched: in which life of the server, and after how many of its events. */
  datatype Moment = Moment(life: nat, seen: nat)

  /** Each life's events, all of them. */
  type Lives = seq<seq<Entry>>

  predicate Within(lives: Lives, m: Moment) { m.life < |lives| && m.seen <= |lives[m.life]| }

  predicate NotAfter(a: Moment, b: Moment) { a.life < b.life || (a.life == b.life && a.seen <= b.seen) }

  /** Fetches go forward in time. */
  predicate InTime(lives: Lives, times: seq<Moment>) {
    && (forall i :: 0 <= i < |times| ==> Within(lives, times[i]))
    && (forall i, j :: 0 <= i <= j < |times| ==> NotAfter(times[i], times[j]))
  }

  /** What the ledger has recorded since this life began: it starts empty with the process. */
  function History(lives: Lives, m: Moment): seq<Entry>
    requires Within(lives, m)
  {
    lives[m.life][..m.seen]
  }

  /** The events of a key in the first n lives. */
  function Before(lives: Lives, n: nat, k: AttemptKey): nat
    requires n <= |lives|
  {
    if n == 0 then 0 else Before(lives, n - 1, k) + CountIf(lives[n - 1], AttemptIs(k))
  }

  /** All events of a key ever recorded by then. */
  function EverRecorded(lives: Lives, m: Moment, k: AttemptKey): nat
    requires Within(lives, m)
  {
    Before(lives, m.life, k) + CountIf(History(lives, m), AttemptIs(k))
  }

  function ScrapeOf(lives: Lives, m: Moment, k: AttemptKey): (a: Scrape)
    requires Within(lives, m)
    ensures a.past >= 0.0 && a.raw >= 0.0 && a.Truth() == EverRecorded(lives, m, k) as real
  {
    Scrape(m.life, Before(lives, m.life, k) as real, CountIf(History(lives, m), AttemptIs(k)) as real)
  }

  lemma {:induction false} PrefixCounts(es: seq<Entry>, n: nat, p: Entry -> bool)
    requires n <= |es|
    ensures CountIf(es[..n], p) <= CountIf(es, p)
    decreases |es|
  {
    if n == |es| {
      assert es[..n] == es;
    } else {
      var front := es[..|es| - 1];
      assert front[..n] == es[..n];
      PrefixCounts(front, n, p);
    }
  }

  lemma {:induction false} BeforeGrows(lives: Lives, m: nat, n: nat, k: AttemptKey)
    requires m <= n <= |lives|
    ensures Before(lives, m, k) <= Before(lives, n, k)
  {
    if m == n {
    } else {
      BeforeGrows(lives, m, n - 1, k);
    }
  }

  lemma LaterFollows(lives: Lives, a: Moment, b: Moment, k: AttemptKey)
    requires Within(lives, a) && Within(lives, b) && NotAfter(a, b)
    ensures Follows(ScrapeOf(lives, a, k), ScrapeOf(lives, b, k))
  {
    if a.life == b.life {
      assert History(lives, b)[..a.seen] == History(lives, a);
      PrefixCounts(History(lives, b), a.seen, AttemptIs(k));
    } else {
      PrefixCounts(lives[a.life], a.seen, AttemptIs(k));
      BeforeGrows(lives, a.life + 1, b.life, k);
    }
  }

  // ---------------------------------------------------------------------
  // Runs

  predicate Timed(run: seq<Visit>, times: seq<Moment>, lives: Lives) {
    ValidRun(run) && |times| == |run| && InTime(lives, times)
  }

  /** Every page lists the attempts recorded by the time it is fetched, and arrives whole. */
  ghost predicate Truthful(run: seq<Visit>, times: seq<Moment>, lives: Lives, fmt: FloatText, k: AttemptKey) {
    && Timed(run, times, lives)
    && (forall x :: OneLine(fmt(x)))
    && (forall m :: 0 <= m < |run| ==>
          && run[m].page.Safe()
          && Exporter.RawsOf(run[m].page.Lines(fmt), AttemptSeries(k)) == Listing(History(lives, times[m]), k))
  }

  /** The scrapes after a visit at some moment that takes in these raw values of the counter. */
  function Grown(s: seq<Scrape>, raws: seq<real>, lives: Lives, m: Moment, k: AttemptKey): seq<Scrape>
    requires Within(lives, m)
  {
    if raws == [] then s else s + [ScrapeOf(lives, m, k)]
  }

  /** The scrapes of a counter that the memory after n visits stems from. */
  function Scrapes(run: seq<Visit>, times: seq<Moment>, lives: Lives, n: nat, fmt: FloatText,
                   k: AttemptKey): seq<Scrape>
    requires Timed(run, times, lives) && n <= |run|
    decreases n
  {
    if n == 0 then []
    else Grown(Scrapes(run, times, lives, run[n - 1].from, fmt, k),
               Exporter.RawsOf(Taken(run[n - 1], fmt), AttemptSeries(k)), lives, times[n - 1], k)
  }

  /** A cell is the restart-safe run of some scrapes, and every fetch from the n-th on follows them. */
  ghost predicate Tracks(c: Cell, s: seq<Scrape>, times: seq<Moment>, lives: Lives, n: nat, k: AttemptKey)
    requires InTime(lives, times)
  {
    && c == Track(s)
    && WellFormed(s)
    && (s != [] ==> forall m :: n <= m < |times| ==> Follows(s[|s|-1], ScrapeOf(lives, times[m], k)))
  }

  lemma TracksGrown(c: Cell, s: seq<Scrape>, raws: seq<real>, times: seq<Moment>, lives: Lives, from: nat,
                    n: nat, k: AttemptKey)
    requires InTime(lives, times) && from <= n < |times| && Tracks(c, s, times, lives, from, k)
    requires raws == [] || raws == [ScrapeOf(lives, times[n], k).raw]
    ensures Tracks(Exporter.After(c, raws), Grown(s, raws, lives, times[n], k), times, lives, n + 1, k)
  {
    if raws != [] {
      TrackAppend(s, ScrapeOf(lives, times[n], k));
      FollowedLater(times, lives, n, k);
    }
  }

  lemma FollowedLater(times: seq<Moment>, lives: Lives, n: nat, k: AttemptKey)
    requires InTime(lives, times) && n < |times|
    ensures forall m :: n <= m < |times| ==> Follows(ScrapeOf(lives, times[n], k), ScrapeOf(lives, times[m], k))
  {
    forall m | n <= m < |times| ensures Follows(ScrapeOf(lives, times[n], k), ScrapeOf(lives, times[m], k)) {
      LaterFollows(lives, times[n], times[m], k);
    }
  }

  ghost predicate TracksAt(run: seq<Visit>, times: seq<Moment>, lives: Lives, n: nat, fmt: FloatText, k: AttemptKey)
    requires Timed(run, times, lives) && n <= |run|
  {
    Tracks(Exporter.CellAt(MemoryAfter(run, n, fmt), AttemptSeries(k)), Scrapes(run, times, lives, n, fmt, k),
           times, lives, n, k)
  }

  ghost function TracksAlong(run: seq<Visit>, times: seq<Moment>, lives: Lives, fmt: FloatText,
                             k: AttemptKey): (ok: seq<bool>)
    requires Timed(run, times, lives)
    ensures |ok| == |run| + 1 && forall m :: 0 <= m <= |run| ==> ok[m] == TracksAt(run, times, lives, m, fmt, k)
  {
    seq(|run| + 1, m requires 0 <= m <= |run| => TracksAt(run, times, lives, m, fmt, k))
  }

  lemma TracksAtStart(run: seq<Visit>, times: seq<Moment>, lives: Lives, fmt: FloatText, k: AttemptKey)
    requires Timed(run, times, lives)
    ensures TracksAt(run, times, lives, 0, fmt, k)
  {
    assert Raws([]) == [];
  }

  /** A visit takes in nothing of the counter, or one scrape of it. */
  lemma VisitTakesScrape(run: seq<Visit>, times: seq<Moment>, lives: Lives, n: nat, fmt: FloatText, k: AttemptKey)
    requires Truthful(run, times, lives, fmt, k) && n < |run|
    ensures var raws := Exporter.RawsOf(Taken(run[n], fmt), AttemptSeries(k));
            var c := Exporter.CellAt(MemoryAfter(run, run[n].from, fmt), AttemptSeries(k));
            && (raws == [] || raws == [ScrapeOf(lives, times[n], k).raw])
            && (run[n].stop.None? ==> raws == Listing(History(lives, times[n]), k))
            && Exporter.CellAt(MemoryAfter(run, n + 1, fmt), AttemptSeries(k)) == Exporter.After(c, raws)
            && Exporter.ValuesOf(ServedBy(run, n, fmt), AttemptSeries(k))
               == if run[n].stop.Some? then [] else ServedOf(c, raws)
  {
    TakenRaws(run[n], fmt, AttemptSeries(k));
    VisitSteps(run, n, fmt, AttemptSeries(k));
  }

  lemma TracksAfterVisit(run: seq<Visit>, times: seq<Moment>, lives: Lives, n: nat, fmt: FloatText, k: AttemptKey)
    requires Truthful(run, times, lives, fmt, k) && n < |run|
    requires TracksAt(run, times, lives, run[n].from, fmt, k)
    ensures TracksAt(run, times, lives, n + 1, fmt, k)
  {
    VisitTakesScrape(run, times, lives, n, fmt, k);
    TracksGrown(Exporter.CellAt(MemoryAfter(run, run[n].from, fmt), AttemptSeries(k)),
                Scrapes(run, times, lives, run[n].from, fmt, k),
                Exporter.RawsOf(Taken(run[n], fmt), AttemptSeries(k)), times, lives, run[n].from, n, k);
  }

  lemma RunTracks(run: seq<Visit>, times: seq<Moment>, lives: Lives, n: nat, fmt: FloatText, k: AttemptKey)
    requires Truthful(run, times, lives, fmt, k) && n <= |run|
    ensures TracksAt(run, times, lives, n, fmt, k)
  {
    var ok := TracksAlong(run, times, lives, fmt, k);
    forall m | 0 <= m < |run| && ok[run[m].from] ensures ok[m + 1] {
      TracksAfterVisit(run, times, lives, m, fmt, k);
    }
    TracksAtStart(run, times, lives, fmt, k);
    HoldsAlong(run, ok, n);
  }

  /** A whole transform serves the counter of every key with an event, where its scrapes have got it to. */
  lemma VisitServesTrack(run: seq<Visit>, times: seq<Moment>, lives: Lives, n: nat, fmt: FloatText, k: AttemptKey)
    returns (s: seq<Scrape>)
    requires Truthful(run, times, lives, fmt, k) && n < |run|
    ensures s == Scrapes(run, times, lives, n + 1, fmt, k) && WellFormed(s)
    ensures Exporter.ValuesOf(ServedBy(run, n, fmt), AttemptSeries(k))
            == if run[n].stop.Some? || k !in AttemptKeys(History(lives, times[n])) then [] else [Track(s).Served()]
    ensures run[n].stop.None? && k in AttemptKeys(History(lives, times[n])) ==>
              s != [] && s[|s|-1] == ScrapeOf(lives, times[n], k)
  {
    s := Scrapes(run, times, lives, n + 1, fmt, k);
    RunTracks(run, times, lives, n + 1, fmt, k);
    VisitTakesScrape(run, times, lives, n, fmt, k);
  }

  /** A single value, at most the truth, and equal to it exactly under some condition. */
  predicate AtMost(values: seq<real>, truth: nat, exact: bool) {
    |values| == 1 && values[0] <= truth as real && (values[0] == truth as real <==> exact)
  }

  /** Whatever the runs of server and exporter: a served attempt counter is at most the number
      of events ever recorded for its key, and equal to it exactly on clean scrape histories. */
  lemma ServedAttemptsAtMostRecorded(run: seq<Visit>, times: seq<Moment>, lives: Lives, n: nat,
                                     fmt: FloatText, k: AttemptKey)
    requires Truthful(run, times, lives, fmt, k) && n < |run|
    requires run[n].stop.None? && k in AttemptKeys(History(lives, times[n]))
    ensures AtMost(Exporter.ValuesOf(ServedBy(run, n, fmt), AttemptSeries(k)), EverRecorded(lives, times[n], k),
                   Clean(Scrapes(run, times, lives, n + 1, fmt, k)))
  {
    var served, s := ServedOnce(run, times, lives, n, fmt, k);
  }

  lemma ServedOnce(run: seq<Visit>, times: seq<Moment>, lives: Lives, n: nat, fmt: FloatText, k: AttemptKey)
    returns (served: real, s: seq<Scrape>)
    requires Truthful(run, times, lives, fmt, k) && n < |run|
    requires run[n].stop.None? && k in AttemptKeys(History(lives, times[n]))
    ensures s == Scrapes(run, times, lives, n + 1, fmt, k)
    ensures Exporter.ValuesOf(ServedBy(run, n, fmt), AttemptSeries(k)) == [served]
    ensures AtMost([served], EverRecorded(lives, times[n], k), Clean(s))
  {
    s := VisitServesTrack(run, times, lives, n, fmt, k);
    served := LastScrapeBounds(s, lives, times[n], k);
  }

  lemma LastScrapeBounds(s: seq<Scrape>, lives: Lives, m: Moment, k: AttemptKey) returns (served: real)
    requires Within(lives, m) && WellFormed(s) && s != [] && s[|s|-1] == ScrapeOf(lives, m, k)
    ensures served == Track(s).Served() && AtMost([served], EverRecorded(lives, m, k), Clean(s))
  {
    served := Track(s).Served();
    ServedIsAtMostTruth(s);
  }

  // ---------------------------------------------------------------------
  // Pages the server printed

  lemma PrintedRunIsTruthful(run: seq<Visit>, times: seq<Moment>, lives: Lives, scenes: seq<ServerPage.Scene>,
                             fmt: FloatText, help: AccountMetrics.HelpText, k: AttemptKey)
    requires Timed(run, times, lives) && |scenes| == |run|
    requires forall m :: 0 <= m < |run| ==>
               && ServerPage.Prints(run[m].page, scenes[m], help) && ServerPage.CleanNames(scenes[m])
               && scenes[m].entries == History(lives, times[m])
    requires (forall x :: NoBrace(fmt(x)) && OneLine(fmt(x))) && forall name :: OneLine(help(name))
    ensures Truthful(run, times, lives, fmt, k)
  {
    forall m | 0 <= m < |run|
      ensures run[m].page.Safe()
      ensures Exporter.RawsOf(run[m].page.Lines(fmt), AttemptSeries(k)) == Listing(History(lives, times[m]), k)
    {
      ServerPage.ServerPageIsFit(run[m].page, scenes[m], help);
      PageListsAttempts(run[m].page, scenes[m].entries, fmt, k);
    }
  }

  /** From the events to the served value, with nothing assumed of a page but that the server
      printed it: over any number of server lives and exporter restarts, each attempt counter
      served is at most the number of events recorded for its key in all lives so far, with
      equality exactly when the scrapes its memory stems from were clean. */
  lemma ServedNeverExceedsRecorded(run: seq<Visit>, times: seq<Moment>, lives: Lives, scenes: seq<ServerPage.Scene>,
                                   n: nat, fmt: FloatText, help: AccountMetrics.HelpText, k: AttemptKey)
    requires Timed(run, times, lives) && |scenes| == |run| && n < |run|
    requires forall m :: 0 <= m < |run| ==>
               && ServerPage.Prints(run[m].page, scenes[m], help) && ServerPage.CleanNames(scenes[m])
               && scenes[m].entries == History(lives, times[m])
    requires (forall x :: NoBrace(fmt(x)) && OneLine(fmt(x))) && forall name :: OneLine(help(name))
    ensures var values := Exporter.ValuesOf(ServedBy(run, n, fmt), AttemptSeries(k));
            && (values != [] <==> run[n].stop.None? && k in AttemptKeys(History(lives, times[n])))
            && (values != [] ==>
                  AtMost(values, EverRecorded(lives, times[n], k), Clean(Scrapes(run, times, lives, n + 1, fmt, k))))
  {
    PrintedRunIsTruthful(run, times, lives, scenes, fmt, help, k);
    var s := VisitServesTrack(run, times, lives, n, fmt, k);
    if run[n].stop.None? && k in AttemptKeys(History(lives, times[n])) {
      ServedAttemptsAtMostRecorded(run, times, lives, n, fmt, k);
    }
  }
}
