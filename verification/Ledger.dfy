/** The in-memory ledger: maps and histogram arrays updated in place, and the sorted
    views read from them. */
module Ledger {
  import opened Counting
  import opened LedgerHistory
  import opened Ordering

  class FirstOutputHist {
    const counts: array<nat>
    var sum: real
    var count: nat

    constructor ()
      ensures counts.Length == SLOTS && View() == NO_WAITS && fresh(counts)
    {
      counts := new nat[SLOTS](i => 0);
      sum, count := 0.0, 0;
    }

    ghost function View(): Hist reads this, counts { Hist(counts[..], sum, count) }

    method Observe(e: Event)
      requires counts.Length == SLOTS
      modifies this, counts
      ensures View() == Observed(old(View()), e)
    {
      var idx := |BOUNDS|;
      var i := 0;
      while i < |BOUNDS|
        invariant 0 <= i <= |BOUNDS| && idx == |BOUNDS|
        invariant SlotFrom(e, 0) == SlotFrom(e, i)
      {
        if Seconds(e) <= BOUNDS[i] {
          idx := i;
          break;
        }
        i := i + 1;
      }
      counts[idx] := counts[idx] + 1;
      sum := sum + Seconds(e);
      count := count + 1;
    }
  }

  lemma ViewsAfterRecord(ops: seq<Op>, x: Entry, now: int)
    ensures var next := ops + [Recorded(x, now)];
            && Group(Kept(next)) == Group(Filter(Kept(ops) + [x], DayFrom(Cutoff(now))))
            && AttemptCounts(Entries(next)) == Incremented(AttemptCounts(Entries(ops)), AttemptOf(x))
            && HistMap(Entries(next)) == Waiting(HistMap(Entries(ops)), x)
  {
    RecordedAppends(ops, x, now);
    AttemptsAppend(Entries(ops), x);
    HistMapAppend(Entries(ops), x);
  }

  type Hists = map<WaitKey, FirstOutputHist>

  /** No two keys share a histogram or its array. */
  ghost predicate Separate(m: Hists) {
    forall j, k :: j in m && k in m && j != k ==> m[j] != m[k] && m[j].counts != m[k].counts
  }

  ghost predicate Inside(m: Hists, repr: set<object>) {
    forall k :: k in m ==> m[k] in repr && m[k].counts in repr
  }

  ghost predicate Shows(h: FirstOutputHist, view: Hist) reads h, h.counts {
    h.counts.Length == SLOTS && h.View() == view
  }

  ghost predicate HistsMatch(m: Hists, repr: set<object>, hists: map<WaitKey, Hist>)
    reads repr
  {
    && m.Keys == hists.Keys && Sized(hists) && Separate(m) && Inside(m, repr)
    && forall k :: k in m ==> Shows(m[k], hists[k])
  }

  /** One histogram as reported: counts made cumulative. */
  datatype Sample = Sample(key: WaitKey, cumulative: seq<nat>, sum: real, count: nat)

  function SampleOf(es: seq<Entry>, k: WaitKey): Sample {
    var h := HistOf(es, k);
    Sample(k, seq(SLOTS, i requires 0 <= i < SLOTS => Running(h.counts, i)), h.sum, h.count)
  }

  // The sort keys of the three views. The last two leave out provider and transport mode.
  function RowRank(): ((RowKey, Bucket)) -> Rank {
    (r: (RowKey, Bucket)) => Rank(r.0.day, [r.0.alias, r.0.provider, r.0.model])
  }
  function AttemptRank(): ((AttemptKey, nat)) -> Rank {
    (a: (AttemptKey, nat)) => Rank(0, [a.0.alias, a.0.model, a.0.outcome, a.0.phase])
  }
  function SampleRank(): Sample -> Rank { (s: Sample) => Rank(0, [s.key.alias, s.key.model]) }

  class UsageLedger {
    var buckets: map<RowKey, Bucket>
    var attempts: map<AttemptKey, nat>
    var firstOutput: Hists
    ghost var repr: set<object>
    ghost var ops: seq<Op>

    ghost predicate Valid()
      reads this, repr
    {
      && buckets == Group(Kept(ops))
      && attempts == AttemptCounts(Entries(ops))
      && this !in repr
      && HistsMatch(firstOutput, repr, HistMap(Entries(ops)))
    }

    constructor ()
      ensures Valid() && ops == [] && repr == {}
    {
      buckets, attempts, firstOutput, repr, ops := map[], map[], map[], {}, [];
    }

    method Record(x: Entry, now: int)
      requires Valid()
      modifies this, repr
      ensures Valid() && ops == old(ops) + [Recorded(x, now)]
      ensures fresh(repr - old(repr))
    {
      ghost var next := ops + [Recorded(x, now)];
      ViewsAfterRecord(ops, x, now);
      RecordParts(x, now, Kept(ops), HistMap(Entries(ops)),
                  Group(Kept(next)), AttemptCounts(Entries(next)), HistMap(Entries(next)), next);
    }

    /** The three maps, given what they show and what they are to show. */
    method RecordParts(x: Entry, now: int, ghost kept: seq<Entry>, ghost hists: map<WaitKey, Hist>,
                       ghost rows: map<RowKey, Bucket>, ghost counts: map<AttemptKey, nat>,
                       ghost moreHists: map<WaitKey, Hist>,
                       ghost next: seq<Op>)
      requires this !in repr && buckets == Group(kept) && HistsMatch(firstOutput, repr, hists)
      requires rows == Group(Filter(kept + [x], DayFrom(Cutoff(now))))
      requires counts == Incremented(attempts, AttemptOf(x)) && moreHists == Waiting(hists, x)
      modifies this, repr
      ensures buckets == rows && attempts == counts && ops == next
      ensures this !in repr && HistsMatch(firstOutput, repr, moreHists)
      ensures fresh(repr - old(repr))
    {
      ops := next;
      RecordAttempt(x, hists);
      StoreAndPrune(x, kept, now);
    }

    method StoreAndPrune(x: Entry, ghost kept: seq<Entry>, now: int)
      requires buckets == Group(kept)
      modifies this`buckets
      ensures buckets == Group(Filter(kept + [x], DayFrom(Cutoff(now))))
    {
      UpdateBucket(x, kept);
      Prune(kept + [x], now);
    }

    method UpdateBucket(x: Entry, ghost kept: seq<Entry>)
      requires buckets == Group(kept)
      modifies this`buckets
      ensures buckets == Group(kept + [x])
    {
      var key := RowOf(x);
      var bucket := AddToBucket(if key in buckets then buckets[key] else EMPTY, x.event);
      GroupAppend(kept, x);
      buckets := buckets[key := bucket];
    }

    /** Classifies one attempt and feeds the counters and the histogram. */
    method RecordAttempt(x: Entry, ghost hists: map<WaitKey, Hist>)
      requires this !in repr && HistsMatch(firstOutput, repr, hists)
      modifies this`attempts, this`firstOutput, this`repr, repr
      ensures attempts == Incremented(old(attempts), AttemptOf(x))
      ensures this !in repr && HistsMatch(firstOutput, repr, Waiting(hists, x))
      ensures fresh(repr - old(repr))
    {
      var outcome := CountAttempt(x);
      if outcome == OK && x.event.ttft > 0 { RecordWait(x, hists); }
    }

    method CountAttempt(x: Entry) returns (outcome: string)
      modifies this`attempts
      ensures attempts == Incremented(old(attempts), AttemptOf(x)) && outcome == Outcome(x.event)
    {
      var e := x.event;
      var phase;
      outcome, phase := Classify(e);
      var key := AttemptKey(x.alias, e.provider, e.model, outcome, phase, e.streaming);
      attempts := attempts[key := 1 + if key in attempts then attempts[key] else 0];
    }

    method RecordWait(x: Entry, ghost hists: map<WaitKey, Hist>)
      requires this !in repr && HistsMatch(firstOutput, repr, hists) && IsSample(x)
      modifies this`firstOutput, this`repr, repr
      ensures this !in repr && HistsMatch(firstOutput, repr, Waiting(hists, x))
      ensures fresh(repr - old(repr))
    {
      var fk := WaitOf(x);
      if fk in firstOutput {
        ObserveAt(fk, x.event, hists);
      } else {
        AddHist(fk, hists);
        ObserveAt(fk, x.event, hists[fk := NO_WAITS]);
        assert Waiting(hists, x) == hists[fk := NO_WAITS][fk := Observed(NO_WAITS, x.event)];
      }
    }

    method ObserveAt(fk: WaitKey, e: Event, ghost hists: map<WaitKey, Hist>)
      requires this !in repr && HistsMatch(firstOutput, repr, hists) && fk in firstOutput
      modifies repr
      ensures HistsMatch(firstOutput, repr, hists[fk := Observed(hists[fk], e)])
    {
      var hist := firstOutput[fk];
      assert Shows(hist, hists[fk]);
      hist.Observe(e);
      assert Shows(hist, Observed(hists[fk], e));
    }

    method AddHist(fk: WaitKey, ghost hists: map<WaitKey, Hist>)
      requires this !in repr && HistsMatch(firstOutput, repr, hists) && fk !in firstOutput
      modifies this`firstOutput, this`repr
      ensures this !in repr && fk in firstOutput && HistsMatch(firstOutput, repr, hists[fk := NO_WAITS])
      ensures fresh(repr - old(repr))
    {
      var hist := new FirstOutputHist();
      OneMoreHist(firstOutput, repr, hists, fk, hist);
      firstOutput := firstOutput[fk := hist];
      repr := repr + {hist, hist.counts};
    }

    /** Deletes rows of days before the cutoff, in any order. */
    method Prune(ghost pending: seq<Entry>, now: int)
      requires buckets == Group(pending)
      modifies this`buckets
      ensures buckets == Group(Filter(pending, DayFrom(Cutoff(now))))
    {
      var cutoff := Cutoff(now);
      var todo := buckets.Keys;
      ghost var was := buckets;
      while todo != {}
        invariant todo <= was.Keys
        invariant buckets == map k | k in was && (k in todo || k.day >= cutoff) :: was[k]
        decreases todo
      {
        var key :| key in todo;
        todo := todo - {key};
        if key.day < cutoff { buckets := buckets - {key}; }
      }
      PruneIsFilter(pending, cutoff);
    }

    /** Retained rows, oldest day first, then by alias, provider and model. */
    method Snapshot(now: int) returns (rows: seq<(RowKey, Bucket)>)
      requires Valid()
      modifies this`buckets, this`ops
      ensures Valid() && ops == old(ops) + [Viewed(now)]
      ensures multiset(rows) == multiset(Group(Kept(ops)).Items)
      ensures Sorted(rows, RowRank())
    {
      ghost var next := ops + [Viewed(now)];
      ViewedAppends(ops, now);
      Prune(Kept(ops), now);
      rows := SortedRows(buckets);
      ops := next;
    }

    method Attempts() returns (out: seq<(AttemptKey, nat)>)
      requires Valid()
      ensures multiset(out) == multiset(AttemptCounts(Entries(ops)).Items)
      ensures Sorted(out, AttemptRank())
    {
      var items := Listed(attempts);
      out := Sort(items, AttemptRank());
      SortSorts(items, AttemptRank());
    }

    method FirstOutputs() returns (out: seq<Sample>)
      requires Valid()
      ensures OneEach(out)
      ensures forall s :: s in out ==> s.key in WaitKeys(Entries(ops)) && s == SampleOf(Entries(ops), s.key)
      ensures forall k :: k in WaitKeys(Entries(ops)) ==> SampleOf(Entries(ops), k) in out
      ensures Sorted(out, SampleRank())
    {
      var items: seq<Sample> := [];
      var todo := firstOutput.Keys;
      while todo != {}
        invariant todo <= firstOutput.Keys
        invariant OneEach(items)
        invariant forall s :: s in items ==>
                  s.key in firstOutput && s.key !in todo && s == SampleOf(Entries(ops), s.key)
        invariant forall k :: k in firstOutput && k !in todo ==> SampleOf(Entries(ops), k) in items
        decreases todo
      {
        var k :| k in todo;
        todo := todo - {k};
        var s := Reported(k, firstOutput[k], Entries(ops));
        items := items + [s];
      }
      out := Sort(items, SampleRank());
      SortSorts(items, SampleRank());
      SameMembers(items, out);
    }
  }

  /** The entries of a map, in whatever order iteration finds them. */
  method Listed<K, V(==)>(m: map<K, V>) returns (items: seq<(K, V)>)
    ensures multiset(items) == multiset(m.Items)
  {
    items := [];
    var todo := m.Items;
    while todo != {}
      invariant multiset(items) + multiset(todo) == multiset(m.Items)
      decreases todo
    {
      var it :| it in todo;
      todo := todo - {it};
      items := items + [it];
    }
  }

  method SortedRows(m: map<RowKey, Bucket>) returns (rows: seq<(RowKey, Bucket)>)
    ensures multiset(rows) == multiset(m.Items) && Sorted(rows, RowRank())
  {
    var items := Listed(m);
    rows := Sort(items, RowRank());
    SortSorts(items, RowRank());
  }

  predicate OneEach(ss: seq<Sample>) { forall i, j :: 0 <= i < j < |ss| ==> ss[i].key != ss[j].key }

  method Reported(k: WaitKey, hist: FirstOutputHist, ghost es: seq<Entry>) returns (s: Sample)
    requires Shows(hist, HistOf(es, k))
    ensures s == SampleOf(es, k)
  {
    var cumulative := Cumulate(hist.counts);
    assert hist.View() == HistOf(es, k);
    s := Sample(k, cumulative, hist.sum, hist.count);
    assert cumulative == SampleOf(es, k).cumulative;
  }

  lemma SameMembers(a: seq<Sample>, b: seq<Sample>)
    requires multiset(a) == multiset(b) && OneEach(a)
    ensures OneEach(b) && forall s :: s in a <==> s in b
  {
    forall s ensures s in a <==> s in b {
      assert s in a <==> s in multiset(a);
      assert s in b <==> s in multiset(b);
    }
    forall i, j | 0 <= i < j < |b| ensures b[i].key != b[j].key {
      assert b[i] in a && b[j] in a;
      OnceEach(a, b[i]);
      if b[i] == b[j] { Twice(b, i, j); }
    }
  }

  lemma {:induction false} OnceEach(a: seq<Sample>, s: Sample)
    requires OneEach(a)
    ensures multiset(a)[s] <= 1
  {
    if a == [] {
    } else {
      var front, last := a[..|a|-1], a[|a|-1];
      assert a == front + [last];
      OnceEach(front, s);
      assert forall i :: 0 <= i < |front| ==> front[i] == a[i] && front[i].key != last.key;
    }
  }

  lemma Twice<T>(a: seq<T>, i: nat, j: nat)
    requires i < j < |a| && a[i] == a[j]
    ensures multiset(a)[a[i]] >= 2
  {
    assert a == a[..j] + a[j..];
    assert a[i] in a[..j] && a[j..][0] == a[j];
    assert a[j] in a[j..];
  }

  /** The attempt view has one entry per key. */
  lemma AttemptViewDistinct(m: map<AttemptKey, nat>, out: seq<(AttemptKey, nat)>)
    requires multiset(out) == multiset(m.Items)
    ensures forall i, j :: 0 <= i < j < |out| ==> out[i].0 != out[j].0
  {
    forall i, j | 0 <= i < j < |out| ensures out[i].0 != out[j].0 {
      assert out[i] in multiset(out) && out[j] in multiset(out);
      assert out[i] in m.Items && out[j] in m.Items;
      if out[i] == out[j] { Twice(out, i, j); }
    }
  }

  method Cumulate(counts: array<nat>) returns (r: seq<nat>)
    ensures |r| == counts.Length && forall i :: 0 <= i < |r| ==> r[i] == Running(counts[..], i)
  {
    r := [];
    var running := 0;
    for i := 0 to counts.Length
      invariant |r| == i && |counts[..]| == counts.Length
      invariant forall j :: 0 <= j < i ==> r[j] == Running(counts[..], j)
      invariant running == if i == 0 then 0 else Running(counts[..], i - 1)
    {
      running := running + counts[i];
      assert running == Running(counts[..], i);
      r := r + [running];
    }
  }

  /** The snapshot is a function of the retained rows: any two listings that satisfy the
      contract of `Snapshot` are the same sequence. */
  lemma SnapshotDetermined(m: map<RowKey, Bucket>, a: seq<(RowKey, Bucket)>, b: seq<(RowKey, Bucket)>)
    requires multiset(a) == multiset(m.Items) && Sorted(a, RowRank())
    requires multiset(b) == multiset(m.Items) && Sorted(b, RowRank())
    ensures a == b
  {
    forall x, y | x in a && y in a && RowRank()(x) == RowRank()(y) ensures x == y {
      assert x in multiset(a) && y in multiset(a);
      assert x in m.Items && y in m.Items;
      assert RowRank()(x).names[0] == RowRank()(y).names[0] && RowRank()(x).names[1] == RowRank()(y).names[1]
             && RowRank()(x).names[2] == RowRank()(y).names[2];
    }
    SortedUnique(a, b, RowRank());
  }

  lemma OneMoreHist(m: Hists, repr: set<object>, hists: map<WaitKey, Hist>, fk: WaitKey, hist: FirstOutputHist)
    requires HistsMatch(m, repr, hists) && fk !in m
    requires hist !in repr && hist.counts !in repr && Shows(hist, NO_WAITS)
    ensures HistsMatch(m[fk := hist], repr + {hist, hist.counts}, hists[fk := NO_WAITS])
  {}

  method Classify(e: Event) returns (outcome: string, phase: string)
    ensures outcome == Outcome(e) && phase == if e.firstOutputTimeout then e.phase else ""
  {
    outcome, phase := OK, "";
    if e.firstOutputTimeout {
      outcome, phase := FIRST_OUTPUT, e.phase;
    } else if e.error.CancelledByCaller? {
      outcome := CANCELED;
    } else if !e.error.NoError? {
      outcome := ERROR;
    }
  }

  /** The bucket fields one event adds to, in the order the ledger touches them. */
  method AddToBucket(was: Bucket, e: Event) returns (bucket: Bucket)
    ensures bucket == Plus(was, e)
  {
    bucket := was.(requests := was.requests + 1);
    if !e.error.NoError? { bucket := bucket.(failures := bucket.failures + 1); }
    bucket := bucket.(input := bucket.input + e.input);
    bucket := bucket.(output := bucket.output + e.output);
    bucket := bucket.(cacheRead := bucket.cacheRead + e.cacheRead);
    bucket := bucket.(cacheWrite := bucket.cacheWrite + e.cacheWrite);
    if e.readReported {
      bucket := bucket.(cacheReportedRequests := bucket.cacheReportedRequests + 1);
      bucket := bucket.(cacheReportedInput := bucket.cacheReportedInput + e.input);
    }
    if e.estimated { bucket := bucket.(estimated := bucket.estimated + 1); }
  }
}
