/** The whole page the server prints, from the ledger's and the account counters' histories:
    it meets what the scraping theorems ask of a page. */
module ServerPage {
  import opened LedgerHistory
  import opened Exposition
  import opened Metrics
  import opened Pipeline
  import Ledger
  import Exporter
  import AccountMetrics
  import AccountPage
  import BucketOrder

  /** Everything the server has recorded when it is scraped, and the sorted tables it prints of it. */
  datatype Scene = Scene(
    entries: seq<Entry>, accountEvents: seq<AccountMetrics.Event>, circuits: seq<AccountMetrics.Circuit>,
    tables: AccountMetrics.Tables)

  function States(sc: Scene): map<AccountMetrics.Account, string> {
    AccountMetrics.StatesOf(AccountMetrics.SeenIn(sc.accountEvents), sc.circuits)
  }

  /** What the contracts of `Attempts`, `FirstOutputs` and the account counters' `Write` say of a page. */
  ghost predicate Prints(p: Page, sc: Scene, help: AccountMetrics.HelpText) {
    && multiset(p.attempts) == multiset(AttemptCounts(sc.entries).Items)
    && Ledger.OneEach(p.samples)
    && (forall s :: s in p.samples ==> s.key in WaitKeys(sc.entries) && s == Ledger.SampleOf(sc.entries, s.key))
    && AccountMetrics.IsTables(sc.tables, sc.accountEvents, sc.circuits)
    && p.rest == AccountMetrics.TableLines(sc.tables, States(sc), help)
  }

  predicate CleanEntry(x: Entry) {
    && OneLineButNewline(x.alias) && OneLineButNewline(x.event.provider) && OneLineButNewline(x.event.model)
    && OneLineButNewline(x.event.phase)
  }

  /** No recorded name holds a line break other than newline. */
  predicate CleanNames(sc: Scene) {
    && (forall x :: x in sc.entries ==> CleanEntry(x))
    && (forall e :: e in sc.accountEvents ==> AccountPage.CleanEvent(e))
    && (forall c :: c in sc.circuits ==> AccountPage.CleanAccount(c.id))
  }

  lemma OwnWordsAreOneLine(e: Event)
    ensures OneLine(Outcome(e)) && OneLine(BoolLabel(e.streaming))
  {
    PrintableIsOneLine(OK);
    PrintableIsOneLine(FIRST_OUTPUT);
    PrintableIsOneLine(ERROR);
    PrintableIsOneLine(CANCELED);
    PrintableIsOneLine("true");
    PrintableIsOneLine("false");
  }

  lemma CleanAttempt(x: Entry)
    requires CleanEntry(x)
    ensures SafeLabels(AttemptLabels(AttemptOf(x)))
  {
    OwnWordsAreOneLine(x.event);
  }

  lemma CleanWait(x: Entry)
    requires CleanEntry(x)
    ensures SafeLabels(WaitLabels(WaitOf(x)))
  {
    OwnWordsAreOneLine(x.event);
  }

  lemma AttemptsAreSafe(attempts: seq<(AttemptKey, nat)>, es: seq<Entry>)
    requires multiset(attempts) == multiset(AttemptCounts(es).Items) && forall x :: x in es ==> CleanEntry(x)
    ensures SafeAttempts(attempts)
  {
    AttemptCountsCount(es);
    forall i | 0 <= i < |attempts| ensures SafeLabels(AttemptLabels(attempts[i].0)) {
      assert attempts[i] in multiset(attempts);
      assert attempts[i] in AttemptCounts(es).Items;
      assert attempts[i].0 in AttemptKeys(es);
      var x :| x in es && AttemptOf(x) == attempts[i].0;
      CleanAttempt(x);
    }
  }

  lemma SamplesAreSafe(samples: seq<Ledger.Sample>, es: seq<Entry>)
    requires (forall s :: s in samples ==> s.key in WaitKeys(es)) && forall x :: x in es ==> CleanEntry(x)
    ensures SafeSamples(samples)
  {
    forall i | 0 <= i < |samples| ensures SafeLabels(WaitLabels(samples[i].key)) {
      assert samples[i] in samples;
      var x :| x in es && IsSample(x) && WaitOf(x) == samples[i].key;
      CleanWait(x);
    }
  }

  /** Everything the scraping theorems ask of a page holds of what the server prints, as long as
      the names it has recorded are free of line breaks other than newline. */
  lemma ServerPageIsFit(p: Page, sc: Scene, help: AccountMetrics.HelpText)
    requires Prints(p, sc, help) && CleanNames(sc) && forall name :: OneLine(help(name))
    ensures p.Valid() && Shows(p, sc.entries) && p.Safe()
    ensures DistinctAttempts(p.attempts) && DistinctSamples(p.samples)
  {
    SamplesShow(p.samples, sc.entries);
    AttemptsAreSafe(p.attempts, sc.entries);
    SamplesAreSafe(p.samples, sc.entries);
    Ledger.AttemptViewDistinct(AttemptCounts(sc.entries), p.attempts);
    AccountLinesAreFit(sc, help);
  }

  lemma SamplesShow(samples: seq<Ledger.Sample>, es: seq<Entry>)
    requires forall s :: s in samples ==> s == Ledger.SampleOf(es, s.key)
    ensures Shaped(samples) && forall i :: 0 <= i < |samples| ==> samples[i] == Ledger.SampleOf(es, samples[i].key)
  {
    forall i | 0 <= i < |samples| ensures samples[i] == Ledger.SampleOf(es, samples[i].key) {
      assert samples[i] in samples;
    }
  }

  lemma AccountLinesAreFit(sc: Scene, help: AccountMetrics.HelpText)
    requires AccountMetrics.IsTables(sc.tables, sc.accountEvents, sc.circuits) && CleanNames(sc)
    requires forall name :: OneLine(help(name))
    ensures Exporter.NotSamples(AccountMetrics.TableLines(sc.tables, States(sc), help))
    ensures AllOneLine(AccountMetrics.TableLines(sc.tables, States(sc), help))
  {
    AccountPage.TablesAreNotSamples(sc.tables, States(sc), help);
    AccountPage.TablesAreOneLine(sc.tables, sc.accountEvents, sc.circuits, help);
  }

  /** From the recorded events to the served values, with nothing assumed of the page but that
      the server printed it: "+Inf" equals "_count" after every scrape of every run in which no
      transform stopped between the two lines. */
  lemma ServedInfEqualsCount(run: seq<Visit>, scenes: seq<Scene>, n: nat, fmt: FloatText,
                             help: AccountMetrics.HelpText, l: string)
    requires |scenes| == |run| && n < |run| && ValidRun(run) && NoneSplit(run, fmt, l)
    requires forall i :: 0 <= i < |run| ==> Prints(run[i].page, scenes[i], help) && CleanNames(scenes[i])
    requires (forall x :: OneLine(fmt(x))) && forall name :: OneLine(help(name))
    ensures Exporter.ValuesOf(ServedBy(run, n, fmt), InfKey(l)) == Exporter.ValuesOf(ServedBy(run, n, fmt), CountKey(l))
  {
    var histories := seq(|run|, i requires 0 <= i < |run| => scenes[i].entries);
    forall i | 0 <= i < |run| ensures run[i].page.Valid() && Shows(run[i].page, histories[i]) && run[i].page.Safe() {
      ServerPageIsFit(run[i].page, scenes[i], help);
    }
    InfEqualsCount(run, histories, n, fmt, l);
  }

  /** Likewise for the order of the served buckets, as long as resets agree upward. */
  lemma ServedBucketsInOrder(run: seq<Visit>, scenes: seq<Scene>, n: nat, fmt: FloatText, help: AccountMetrics.HelpText,
                             w: WaitKey, i: nat, j: nat)
    requires |scenes| == |run| && n < |run| && i <= j < SLOTS && ValidRun(run)
    requires forall m :: 0 <= m < |run| ==> Prints(run[m].page, scenes[m], help) && CleanNames(scenes[m])
    requires (forall x :: NoBrace(fmt(x)) && OneLine(fmt(x))) && forall name :: OneLine(help(name))
    requires BucketOrder.ResetsAgree(run, fmt, w, i, j)
    ensures BucketOrder.InOrder(Exporter.ValuesOf(ServedBy(run, n, fmt), BucketOrder.BucketKey(w, i)),
                                Exporter.ValuesOf(ServedBy(run, n, fmt), BucketOrder.BucketKey(w, j)))
  {
    var histories := seq(|run|, m requires 0 <= m < |run| => scenes[m].entries);
    forall m | 0 <= m < |run| ensures BucketOrder.Fit(run[m].page, histories[m]) {
      ServerPageIsFit(run[m].page, scenes[m], help);
    }
    BucketOrder.BucketsServedInOrder(run, histories, n, fmt, w, i, j);
  }

  /** `metrics`: the handler renders the ledger's views and then the account counters. */
  method ServeMetrics(l: Ledger.UsageLedger, m: AccountMetrics.AccountCounters,
                      circuits: seq<AccountMetrics.Circuit>, fmt: FloatText, help: AccountMetrics.HelpText)
    returns (body: string, ghost p: Page, ghost sc: Scene)
    requires l.Valid() && m.Valid()
    ensures sc.entries == Entries(l.ops) && sc.accountEvents == m.events && sc.circuits == circuits
    ensures Prints(p, sc, help) && p.Valid() && body == p.Body(fmt)
  {
    var attempts := l.Attempts();
    var samples, first := ServeLedger(l, attempts, fmt);
    var more, tables := m.Write(circuits, help);
    sc := Scene(Entries(l.ops), m.events, circuits, tables);
    p := Page(attempts, samples, AccountMetrics.TableLines(tables, States(sc), help));
    JoinConcat(MetricsLines(attempts, samples, fmt), p.rest);
    body := first + more;
  }

  method ServeLedger(l: Ledger.UsageLedger, attempts: seq<(AttemptKey, nat)>, fmt: FloatText)
    returns (samples: seq<Ledger.Sample>, body: string)
    requires l.Valid()
    ensures Ledger.OneEach(samples) && Shaped(samples)
    ensures forall s :: s in samples ==>
            s.key in WaitKeys(Entries(l.ops)) && s == Ledger.SampleOf(Entries(l.ops), s.key)
    ensures body == Join(MetricsLines(attempts, samples, fmt))
  {
    samples := l.FirstOutputs();
    SamplesShow(samples, Entries(l.ops));
    body := WriteMetrics(attempts, samples, fmt);
  }
}
