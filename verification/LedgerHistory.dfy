/** What the usage ledger should say: plain counts over the full history of recorded
    events, and which part of that history pruning keeps. */
module LedgerHistory {
  import opened Counting

  datatype Failure = NoError | CancelledByCaller | OtherError

  /** The fields of a library request event the ledger reads; times in seconds since the
      epoch (UTC), `ttft` in nanoseconds. */
  datatype Event = Event(
    time: int, provider: string, model: string, error: Failure, firstOutputTimeout: bool, phase: string,
    streaming: bool, ttft: int, input: int, output: int, cacheRead: int, cacheWrite: int,
    readReported: bool, estimated: bool)

  datatype Entry = Entry(alias: string, event: Event)

  // ---------------------------------------------------------------------
  // Days and pruning

  const DAY := 86400
  const RETENTION := 31 * DAY

  function DayOf(t: int): int { t / DAY }

  function Cutoff(now: int): int { DayOf(now - RETENTION) }

  /** The ledger's life: events recorded and snapshots taken, each at some clock reading. */
  datatype Op = Recorded(entry: Entry, now: int) | Viewed(now: int)

  function DayFrom(cutoff: int): Entry -> bool { (x: Entry) => DayOf(x.event.time) >= cutoff }
  function DayBefore(cutoff: int): Entry -> bool { (x: Entry) => DayOf(x.event.time) < cutoff }

  function Entries(ops: seq<Op>): seq<Entry> {
    if ops == [] then [] else
      var op := ops[|ops|-1];
      if op.Recorded? then Entries(ops[..|ops|-1]) + [op.entry] else Entries(ops[..|ops|-1])
  }

  /** Entries that survived every prune since they were recorded. */
  function Kept(ops: seq<Op>): seq<Entry>
    decreases ops, 1
  {
    if ops == [] then [] else Filter(PendingOf(ops), DayFrom(Cutoff(ops[|ops|-1].now)))
  }

  /** What is in the map just before the last operation prunes. */
  function PendingOf(ops: seq<Op>): seq<Entry>
    requires ops != []
    decreases ops, 0
  {
    var op := ops[|ops|-1];
    if op.Recorded? then Kept(ops[..|ops|-1]) + [op.entry] else Kept(ops[..|ops|-1])
  }

  /** Entries some prune removed. */
  function Pruned(ops: seq<Op>): seq<Entry> {
    if ops == [] then []
    else Pruned(ops[..|ops|-1]) + Filter(PendingOf(ops), DayBefore(Cutoff(ops[|ops|-1].now)))
  }

  lemma RecordedAppends(ops: seq<Op>, x: Entry, now: int)
    ensures var next := ops + [Recorded(x, now)];
            Entries(next) == Entries(ops) + [x] && Kept(next) == Filter(Kept(ops) + [x], DayFrom(Cutoff(now)))
  {
    assert (ops + [Recorded(x, now)])[..|ops|] == ops;
  }

  lemma ViewedAppends(ops: seq<Op>, now: int)
    ensures var next := ops + [Viewed(now)];
            Entries(next) == Entries(ops) && Kept(next) == Filter(Kept(ops), DayFrom(Cutoff(now)))
  {
    assert (ops + [Viewed(now)])[..|ops|] == ops;
  }

  lemma {:induction false} CountConcat(a: seq<Entry>, b: seq<Entry>, p: Entry -> bool)
    ensures CountIf(a + b, p) == CountIf(a, p) + CountIf(b, p)
    decreases |b|
  {
    if b == [] {
      assert a + b == a;
    } else {
      assert (a + b)[..|a + b| - 1] == a + b[..|b| - 1];
      CountConcat(a, b[..|b| - 1], p);
    }
  }

  lemma {:induction false} FilterPartition(s: seq<Entry>, cutoff: int, p: Entry -> bool)
    ensures CountIf(s, p) == CountIf(Filter(s, DayFrom(cutoff)), p) + CountIf(Filter(s, DayBefore(cutoff)), p)
  {
    if s == [] {
    } else {
      var front, x := s[..|s|-1], s[|s|-1];
      FilterPartition(front, cutoff, p);
      CountAppend(Filter(front, DayFrom(cutoff)), x, p);
      CountAppend(Filter(front, DayBefore(cutoff)), x, p);
    }
  }

  /** No event is forgotten twice or counted twice: whatever is counted, the retained and
      the pruned entries together give the whole history. */
  lemma {:induction false} KeptPlusPruned(ops: seq<Op>, p: Entry -> bool)
    ensures CountIf(Kept(ops), p) + CountIf(Pruned(ops), p) == CountIf(Entries(ops), p)
  {
    if ops == [] {
    } else {
      var front, op := ops[..|ops|-1], ops[|ops|-1];
      KeptPlusPruned(front, p);
      FilterPartition(PendingOf(ops), Cutoff(op.now), p);
      CountConcat(Pruned(front), Filter(PendingOf(ops), DayBefore(Cutoff(op.now))), p);
      if op.Recorded? {
        CountAppend(Kept(front), op.entry, p);
        CountAppend(Entries(front), op.entry, p);
      }
    }
  }

  lemma {:induction false} FilterConcat(a: seq<Entry>, b: seq<Entry>, p: Entry -> bool)
    ensures Filter(a + b, p) == Filter(a, p) + Filter(b, p)
    decreases |b|
  {
    if b == [] {
      assert a + b == a;
    } else {
      assert (a + b)[..|a + b| - 1] == a + b[..|b| - 1];
      FilterConcat(a, b[..|b| - 1], p);
    }
  }

  /** If nothing from day `c` on was ever pruned, the kept entries from day `c` on are all of them. */
  lemma {:induction false} NothingLostFrom(ops: seq<Op>, c: int)
    requires forall x :: x in Pruned(ops) ==> DayOf(x.event.time) < c
    ensures Filter(Kept(ops), DayFrom(c)) == Filter(Entries(ops), DayFrom(c))
  {
    if ops == [] {
    } else {
      var front, op := ops[..|ops|-1], ops[|ops|-1];
      var cut := Cutoff(op.now);
      NothingLostFrom(front, c);
      FilterMember(PendingOf(ops), DayBefore(cut));
      assert forall x :: x in PendingOf(ops) && DayOf(x.event.time) < cut ==> x in Pruned(ops);
      FilterAnd(PendingOf(ops), DayFrom(cut), DayFrom(c), DayFrom(c));
      if op.Recorded? {
        FilterConcat(Kept(front), [op.entry], DayFrom(c));
        FilterConcat(Entries(front), [op.entry], DayFrom(c));
      }
    }
  }

  // ---------------------------------------------------------------------
  // Stats buckets

  datatype RowKey = RowKey(day: int, alias: string, provider: string, model: string)

  datatype Bucket = Bucket(
    requests: nat, failures: nat, input: int, output: int, cacheRead: int, cacheWrite: int,
    cacheReportedRequests: nat, cacheReportedInput: int, estimated: nat)

  const EMPTY := Bucket(0, 0, 0, 0, 0, 0, 0, 0, 0)

  function RowOf(x: Entry): RowKey { RowKey(DayOf(x.event.time), x.alias, x.event.provider, x.event.model) }

  function InRow(k: RowKey): Entry -> bool { (x: Entry) => RowOf(x) == k }

  /** Column by column: one more entry in a row. */
  function Plus(b: Bucket, e: Event): Bucket {
    Bucket(b.requests + 1,
           if e.error.NoError? then b.failures else b.failures + 1,
           b.input + e.input, b.output + e.output, b.cacheRead + e.cacheRead, b.cacheWrite + e.cacheWrite,
           if e.readReported then b.cacheReportedRequests + 1 else b.cacheReportedRequests,
           if e.readReported then b.cacheReportedInput + e.input else b.cacheReportedInput,
           if e.estimated then b.estimated + 1 else b.estimated)
  }

  /** The sums over the entries of one row. */
  function Total(es: seq<Entry>, k: RowKey): Bucket {
    if es == [] then EMPTY
    else if RowOf(es[|es|-1]) != k then Total(es[..|es|-1], k)
    else Plus(Total(es[..|es|-1], k), es[|es|-1].event)
  }

  function Rows(es: seq<Entry>): set<RowKey> { set x | x in es :: RowOf(x) }

  /** Grouping a history by day, alias, provider and model, one entry at a time. */
  function Group(es: seq<Entry>): (m: map<RowKey, Bucket>) {
    if es == [] then map[] else
      var m, x := Group(es[..|es|-1]), es[|es|-1];
      m[RowOf(x) := Plus(if RowOf(x) in m then m[RowOf(x)] else EMPTY, x.event)]
  }

  /** A grouping has one row per key that occurs, holding the sums over its entries. */
  lemma {:induction false} GroupIsTotals(es: seq<Entry>)
    ensures Group(es).Keys == Rows(es)
    ensures forall k :: k in Group(es) ==> Group(es)[k] == Total(es, k)
  {
    if es == [] {
    } else {
      var front, x := es[..|es|-1], es[|es|-1];
      assert es == front + [x];
      GroupIsTotals(front);
      TotalAppend(front, x);
      if RowOf(x) !in Rows(front) { TotalOfMissing(front, RowOf(x)); }
    }
  }

  lemma GroupAppend(es: seq<Entry>, x: Entry)
    ensures var m := Group(es);
            Group(es + [x]) == m[RowOf(x) := Plus(if RowOf(x) in m then m[RowOf(x)] else EMPTY, x.event)]
  {
    assert (es + [x])[..|es|] == es;
  }

  function Failed(k: RowKey): Entry -> bool { (x: Entry) => RowOf(x) == k && !x.event.error.NoError? }

  lemma {:induction false} TotalCounts(es: seq<Entry>, k: RowKey)
    ensures Total(es, k).requests == CountIf(es, InRow(k))
    ensures Total(es, k).failures == CountIf(es, Failed(k))
  {
    if es == [] {
    } else {
      TotalCounts(es[..|es|-1], k);
    }
  }

  function ReadReportedIn(k: RowKey): Entry -> bool { (x: Entry) => RowOf(x) == k && x.event.readReported }
  function EstimatedIn(k: RowKey): Entry -> bool { (x: Entry) => RowOf(x) == k && x.event.estimated }

  function Input(): Event -> int { (e: Event) => e.input }
  function Output(): Event -> int { (e: Event) => e.output }
  function CacheRead(): Event -> int { (e: Event) => e.cacheRead }
  function CacheWrite(): Event -> int { (e: Event) => e.cacheWrite }

  /** The sum of one event field over a list of entries. */
  function Added(es: seq<Entry>, f: Event -> int): int {
    if es == [] then 0 else Added(es[..|es|-1], f) + f(es[|es|-1].event)
  }

  lemma AddedOfFilter(es: seq<Entry>, p: Entry -> bool, f: Event -> int)
    requires es != []
    ensures var x := es[|es|-1];
            Added(Filter(es, p), f) == Added(Filter(es[..|es|-1], p), f) + if p(x) then f(x.event) else 0
  {
    var kept, x := Filter(es[..|es|-1], p), es[|es|-1];
    assert (kept + [x])[..|kept|] == kept;
  }

  /** Column by column, what a row holds: tokens summed over the row's entries. */
  lemma {:induction false} TokenColumns(es: seq<Entry>, k: RowKey)
    ensures var t, row := Total(es, k), Filter(es, InRow(k));
            && t.input == Added(row, Input()) && t.output == Added(row, Output())
            && t.cacheRead == Added(row, CacheRead()) && t.cacheWrite == Added(row, CacheWrite())
  {
    if es == [] {
    } else {
      TokenColumns(es[..|es|-1], k);
      AddedOfFilter(es, InRow(k), Input());
      AddedOfFilter(es, InRow(k), Output());
      AddedOfFilter(es, InRow(k), CacheRead());
      AddedOfFilter(es, InRow(k), CacheWrite());
    }
  }

  /** The hit rate's denominators cover just the entries whose provider spoke about cache reads. */
  lemma {:induction false} ReportColumns(es: seq<Entry>, k: RowKey)
    ensures var t := Total(es, k);
            && t.cacheReportedRequests == CountIf(es, ReadReportedIn(k))
            && t.cacheReportedInput == Added(Filter(es, ReadReportedIn(k)), Input())
            && t.estimated == CountIf(es, EstimatedIn(k))
  {
    if es == [] {
    } else {
      ReportColumns(es[..|es|-1], k);
      AddedOfFilter(es, ReadReportedIn(k), Input());
    }
  }

  lemma TotalAppend(es: seq<Entry>, x: Entry)
    ensures forall k :: k != RowOf(x) ==> Total(es + [x], k) == Total(es, k)
    ensures Rows(es + [x]) == Rows(es) + {RowOf(x)}
  {
    assert (es + [x])[..|es|] == es;
  }

  lemma {:induction false} TotalOfMissing(es: seq<Entry>, k: RowKey)
    requires k !in Rows(es)
    ensures Total(es, k) == EMPTY
  {
    if es == [] {
    } else {
      TotalOfMissing(es[..|es|-1], k);
      assert es[|es|-1] in es;
    }
  }

  lemma {:induction false} TotalOfFilter(es: seq<Entry>, c: int, k: RowKey)
    requires k.day >= c
    ensures Total(Filter(es, DayFrom(c)), k) == Total(es, k)
  {
    if es == [] {
    } else {
      var front, x := es[..|es|-1], es[|es|-1];
      TotalOfFilter(front, c, k);
      if DayOf(x.event.time) >= c {
        assert (Filter(front, DayFrom(c)) + [x])[..|Filter(front, DayFrom(c))|] == Filter(front, DayFrom(c));
      }
    }
  }

  /** Deleting the rows of old days from a grouping is grouping without the old entries. */
  lemma PruneIsFilter(es: seq<Entry>, c: int)
    ensures (map k | k in Group(es) && k.day >= c :: Group(es)[k]) == Group(Filter(es, DayFrom(c)))
  {
    var f := Filter(es, DayFrom(c));
    FilterMember(es, DayFrom(c));
    forall k ensures k in Rows(f) <==> k in Rows(es) && k.day >= c {
      if k in Rows(es) && k.day >= c { var x :| x in es && RowOf(x) == k; assert x in f; }
      if k in Rows(f) { var x :| x in f && RowOf(x) == k; assert x in es; }
    }
    GroupIsTotals(es);
    GroupIsTotals(f);
    forall k | k in Rows(f) ensures Total(f, k) == Total(es, k) { TotalOfFilter(es, c, k); }
  }

  /** A first step: the rows are the window's exactly when nothing of the window was pruned. */
  lemma RetainedIfUnpruned(ops: seq<Op>)
    requires ops != []
    ensures var c := Cutoff(ops[|ops|-1].now);
            Group(Kept(ops)) == Group(Filter(Entries(ops), DayFrom(c)))
            <==> forall x :: x in Pruned(ops) ==> DayOf(x.event.time) < c
  {
    var c := Cutoff(ops[|ops|-1].now);
    var all := Filter(Entries(ops), DayFrom(c));
    if forall x :: x in Pruned(ops) ==> DayOf(x.event.time) < c {
      NothingLostFrom(ops, c);
      FilterAnd(PendingOf(ops), DayFrom(c), DayFrom(c), DayFrom(c));
      assert Kept(ops) == all;
    } else {
      var x :| x in Pruned(ops) && DayOf(x.event.time) >= c;
      var k := RowOf(x);
      KeptPlusPruned(ops, InRow(k));
      CountPositive(Pruned(ops), InRow(k));
      TotalCounts(Kept(ops), k);
      TotalCounts(Entries(ops), k);
      TotalOfFilter(Entries(ops), c, k);
      assert Total(all, k).requests > Total(Kept(ops), k).requests;
      GroupDeterminesTotals(Kept(ops), all, k);
    }
  }

  lemma GroupDeterminesTotals(a: seq<Entry>, b: seq<Entry>, k: RowKey)
    ensures Group(a) == Group(b) ==> Total(a, k) == Total(b, k)
  {
    GroupIsTotals(a);
    GroupIsTotals(b);
    if Group(a) == Group(b) {
      assert Rows(a) == Group(a).Keys == Rows(b);
      if k in Rows(a) {
        assert Group(a)[k] == Group(b)[k];
      } else {
        TotalOfMissing(a, k);
        TotalOfMissing(b, k);
      }
    }
  }

  // What was pruned, in terms of clock readings and event days.

  /** Entry `x`, recorded by operation `i`, is older than the cutoff of operation `j`. */
  predicate CutAt(ops: seq<Op>, x: Entry, i: nat, j: nat) {
    i <= j < |ops| && ops[i].Recorded? && ops[i].entry == x && DayOf(x.event.time) < Cutoff(ops[j].now)
  }

  lemma {:induction false} RecordedIsEntry(ops: seq<Op>, i: nat)
    requires i < |ops| && ops[i].Recorded?
    ensures ops[i].entry in Entries(ops)
  {
    if i == |ops| - 1 {
    } else {
      RecordedIsEntry(ops[..|ops|-1], i);
    }
  }

  lemma {:induction false} KeptWasRecorded(ops: seq<Op>, x: Entry) returns (i: nat)
    requires x in Kept(ops)
    ensures i < |ops| && ops[i].Recorded? && ops[i].entry == x
    decreases ops, 1
  {
    FilterMember(PendingOf(ops), DayFrom(Cutoff(ops[|ops|-1].now)));
    i := PendingWasRecorded(ops, x);
  }

  lemma {:induction false} PendingWasRecorded(ops: seq<Op>, x: Entry) returns (i: nat)
    requires ops != [] && x in PendingOf(ops)
    ensures i < |ops| && ops[i].Recorded? && ops[i].entry == x
    decreases ops, 0
  {
    var front, op := ops[..|ops|-1], ops[|ops|-1];
    if x in Kept(front) { i := KeptWasRecorded(front, x); } else { i := |ops| - 1; }
  }

  lemma {:induction false} PrunedWasCut(ops: seq<Op>, x: Entry) returns (i: nat, j: nat)
    requires x in Pruned(ops)
    ensures CutAt(ops, x, i, j)
  {
    var front, cut := ops[..|ops|-1], Cutoff(ops[|ops|-1].now);
    if x in Pruned(front) {
      i, j := PrunedWasCut(front, x);
    } else {
      FilterMember(PendingOf(ops), DayBefore(cut));
      i := PendingWasRecorded(ops, x);
      j := |ops| - 1;
    }
  }

  lemma KeptOrPruned(ops: seq<Op>, x: Entry)
    requires x in Entries(ops)
    ensures x in Kept(ops) || x in Pruned(ops)
  {
    var same := (y: Entry) => y == x;
    KeptPlusPruned(ops, same);
    CountPositive(Entries(ops), same);
    CountPositive(Kept(ops), same);
    CountPositive(Pruned(ops), same);
  }

  lemma {:induction false} CutIsPruned(ops: seq<Op>, x: Entry, i: nat, j: nat)
    requires CutAt(ops, x, i, j)
    ensures x in Pruned(ops)
  {
    var front := ops[..|ops|-1];
    if j < |front| { CutIsPruned(front, x, i, j); } else { CutNow(ops, x, i); }
  }

  /** What the last operation cuts was pending, unless it was gone before. */
  lemma CutNow(ops: seq<Op>, x: Entry, i: nat)
    requires ops != [] && CutAt(ops, x, i, |ops| - 1)
    ensures x in Pruned(ops)
  {
    var front := ops[..|ops|-1];
    StillPending(ops, x, i);
    FilterMember(PendingOf(ops), DayBefore(Cutoff(ops[|ops|-1].now)));
  }

  lemma StillPending(ops: seq<Op>, x: Entry, i: nat)
    requires i < |ops| && ops[i].Recorded? && ops[i].entry == x
    ensures x in PendingOf(ops) || x in Pruned(ops[..|ops|-1])
  {
    var front := ops[..|ops|-1];
    if i < |front| {
      RecordedIsEntry(front, i);
      KeptOrPruned(front, x);
    }
  }

  /** No clock reading since an event of day `c` or later was recorded put its day before the cutoff. */
  predicate Undisturbed(ops: seq<Op>, c: int) {
    forall i, j :: 0 <= i <= j < |ops| && ops[i].Recorded? && DayOf(ops[i].entry.event.time) >= c
      ==> Cutoff(ops[j].now) <= DayOf(ops[i].entry.event.time)
  }

  lemma UndisturbedIffUnpruned(ops: seq<Op>, c: int)
    ensures Undisturbed(ops, c) <==> forall x :: x in Pruned(ops) ==> DayOf(x.event.time) < c
  {
    if Undisturbed(ops, c) {
      forall x | x in Pruned(ops) ensures DayOf(x.event.time) < c { var i, j := PrunedWasCut(ops, x); }
    } else {
      var i, j :| 0 <= i <= j < |ops| && ops[i].Recorded? && DayOf(ops[i].entry.event.time) >= c
                  && Cutoff(ops[j].now) > DayOf(ops[i].entry.event.time);
      CutIsPruned(ops, ops[i].entry, i, j);
    }
  }

  /** For any clock: the retained rows are the grouping of every event from the current cutoff
      day on, exactly when no clock reading after such an event was recorded had already put
      its day out of the window. */
  lemma RetainedIsWindow(ops: seq<Op>)
    requires ops != []
    ensures var c := Cutoff(ops[|ops|-1].now);
            Group(Kept(ops)) == Group(Filter(Entries(ops), DayFrom(c))) <==> Undisturbed(ops, c)
  {
    RetainedIfUnpruned(ops);
    UndisturbedIffUnpruned(ops, Cutoff(ops[|ops|-1].now));
  }

  predicate ClockNeverGoesBack(ops: seq<Op>) { forall i, j :: 0 <= i < j < |ops| ==> ops[i].now <= ops[j].now }

  /** With a clock that never goes back, incremental recording and pruning is the plain
      grouping of the window: a pruned row never reappears with partial sums. */
  lemma SteadyClockKeepsWindow(ops: seq<Op>)
    requires ops != [] && ClockNeverGoesBack(ops)
    ensures Group(Kept(ops)) == Group(Filter(Entries(ops), DayFrom(Cutoff(ops[|ops|-1].now))))
  {
    RetainedIsWindow(ops);
    forall j | 0 <= j < |ops| ensures Cutoff(ops[j].now) <= Cutoff(ops[|ops|-1].now) {}
  }

  /** A clock that runs ahead and comes back loses an event of the current day. */
  lemma ClockGoingBackLosesRows(x: Entry)
    requires x.event.time == 0
    ensures var ops := [Recorded(x, 0), Viewed(100 * DAY), Viewed(0)];
            && Group(Kept(ops)) != Group(Filter(Entries(ops), DayFrom(Cutoff(0))))
            && Entries(ops) == [x] && DayOf(x.event.time) >= Cutoff(0)
  {
    var ops := [Recorded(x, 0), Viewed(100 * DAY), Viewed(0)];
    RecordedAppends([], x, 0);
    ViewedAppends([] + [Recorded(x, 0)], 100 * DAY);
    ViewedAppends([] + [Recorded(x, 0)] + [Viewed(100 * DAY)], 0);
    assert ops == [] + [Recorded(x, 0)] + [Viewed(100 * DAY)] + [Viewed(0)];
    assert !Undisturbed(ops, Cutoff(0)) by {
      assert ops[0].Recorded? && Cutoff(ops[1].now) > DayOf(ops[0].entry.event.time) >= Cutoff(0);
    }
    RetainedIsWindow(ops);
  }

  // ---------------------------------------------------------------------
  // Attempt outcomes

  const OK := "ok"
  const FIRST_OUTPUT := "first_output_timeout"
  const ERROR := "error"
  const CANCELED := "canceled"

  function Outcome(e: Event): string {
    if e.firstOutputTimeout then FIRST_OUTPUT
    else match e.error
         case NoError => OK
         case CancelledByCaller => CANCELED
         case OtherError => ERROR
  }

  datatype AttemptKey = AttemptKey(alias: string, provider: string, model: string, outcome: string, phase: string,
                                   streaming: bool)

  function AttemptOf(x: Entry): AttemptKey {
    AttemptKey(x.alias, x.event.provider, x.event.model, Outcome(x.event),
               if x.event.firstOutputTimeout then x.event.phase else "", x.event.streaming)
  }

  function AttemptIs(k: AttemptKey): Entry -> bool { (x: Entry) => AttemptOf(x) == k }

  function AttemptKeys(es: seq<Entry>): set<AttemptKey> { set x | x in es :: AttemptOf(x) }

  function Incremented(m: map<AttemptKey, nat>, k: AttemptKey): map<AttemptKey, nat> {
    m[k := 1 + if k in m then m[k] else 0]
  }

  function AttemptCounts(es: seq<Entry>): (m: map<AttemptKey, nat>) {
    if es == [] then map[] else Incremented(AttemptCounts(es[..|es|-1]), AttemptOf(es[|es|-1]))
  }

  /** The counters are exactly the numbers of events per key that occurs. */
  lemma {:induction false} AttemptCountsCount(es: seq<Entry>)
    ensures AttemptCounts(es).Keys == AttemptKeys(es)
    ensures forall k :: k in AttemptCounts(es) ==> AttemptCounts(es)[k] == CountIf(es, AttemptIs(k))
  {
    if es == [] {
    } else {
      var front, x := es[..|es|-1], es[|es|-1];
      assert es == front + [x];
      AttemptCountsCount(front);
      CountPositive(front, AttemptIs(AttemptOf(x)));
    }
  }

  lemma AttemptsAppend(es: seq<Entry>, x: Entry)
    ensures AttemptCounts(es + [x]) == Incremented(AttemptCounts(es), AttemptOf(x))
  {
    assert (es + [x])[..|es|] == es;
  }

  // ---------------------------------------------------------------------
  // First-output histograms

  const BOUNDS: seq<real> := [0.5, 1.0, 2.0, 5.0, 10.0, 20.0, 30.0, 60.0, 120.0]
  const SLOTS := 10

  datatype WaitKey = WaitKey(alias: string, provider: string, model: string, streaming: bool)

  function WaitOf(x: Entry): WaitKey { WaitKey(x.alias, x.event.provider, x.event.model, x.event.streaming) }

  function Seconds(e: Event): real { e.ttft as real / 1000000000.0 }

  predicate IsSample(x: Entry) { Outcome(x.event) == OK && x.event.ttft > 0 }

  function Sampled(k: WaitKey): Entry -> bool { (x: Entry) => IsSample(x) && WaitOf(x) == k }

  /** Waits no longer than the i-th bound; every wait for the last slot. */
  predicate Within(e: Event, i: nat) { i < |BOUNDS| ==> Seconds(e) <= BOUNDS[i] }

  function SampledWithin(k: WaitKey, i: nat): Entry -> bool {
    (x: Entry) => IsSample(x) && WaitOf(x) == k && Within(x.event, i)
  }

  /** The first slot whose bound the wait does not exceed, searching from slot `i`. */
  function SlotFrom(e: Event, i: nat): (s: nat)
    requires i <= |BOUNDS|
    ensures i <= s <= |BOUNDS| && Within(e, s)
    ensures forall j :: i <= j < s ==> !Within(e, j)
    decreases |BOUNDS| - i
  {
    if i == |BOUNDS| || Seconds(e) <= BOUNDS[i] then i else SlotFrom(e, i + 1)
  }

  function SampledIn(k: WaitKey, i: nat): Entry -> bool {
    (x: Entry) => IsSample(x) && WaitOf(x) == k && SlotFrom(x.event, 0) == i
  }

  datatype Hist = Hist(counts: seq<nat>, sum: real, count: nat)

  const NO_WAITS := Hist([0, 0, 0, 0, 0, 0, 0, 0, 0, 0], 0.0, 0)

  function Observed(h: Hist, e: Event): (r: Hist)
    requires |h.counts| == SLOTS
    ensures |r.counts| == SLOTS
  {
    var s := SlotFrom(e, 0);
    Hist(h.counts[s := h.counts[s] + 1], h.sum + Seconds(e), h.count + 1)
  }

  function HistOf(es: seq<Entry>, k: WaitKey): (h: Hist)
    ensures |h.counts| == SLOTS
  {
    if es == [] then NO_WAITS else
      var h, x := HistOf(es[..|es|-1], k), es[|es|-1];
      if Sampled(k)(x) then Observed(h, x.event) else h
  }

  predicate Sized(hists: map<WaitKey, Hist>) { forall k :: k in hists ==> |hists[k].counts| == SLOTS }

  /** The histogram of every key that has one. */
  function HistMap(es: seq<Entry>): (hists: map<WaitKey, Hist>)
    ensures Sized(hists)
  {
    map k | k in WaitKeys(es) :: HistOf(es, k)
  }

  /** What one more entry does to the histograms. */
  function Waiting(hists: map<WaitKey, Hist>, x: Entry): (more: map<WaitKey, Hist>)
    requires Sized(hists)
    ensures Sized(more)
  {
    if IsSample(x)
    then hists[WaitOf(x) := Observed(if WaitOf(x) in hists then hists[WaitOf(x)] else NO_WAITS, x.event)]
    else hists
  }

  lemma HistMapAppend(es: seq<Entry>, x: Entry)
    ensures HistMap(es + [x]) == Waiting(HistMap(es), x)
  {
    WaitKeysAppend(es, x);
    forall k | k in WaitKeys(es + [x]) ensures HistOf(es + [x], k) == Waiting(HistMap(es), x)[k] {
      HistAppend(es, x, k);
      if k !in WaitKeys(es) { EmptyHist(es, k); }
    }
  }

  function WaitKeys(es: seq<Entry>): set<WaitKey> { set x | x in es && IsSample(x) :: WaitOf(x) }

  lemma WaitKeysAppend(es: seq<Entry>, x: Entry)
    ensures WaitKeys(es + [x]) == WaitKeys(es) + if IsSample(x) then {WaitOf(x)} else {}
  {
    forall y | y in es ensures y in es + [x] {}
  }

  lemma HistAppend(es: seq<Entry>, x: Entry, k: WaitKey)
    ensures HistOf(es + [x], k) == if Sampled(k)(x) then Observed(HistOf(es, k), x.event) else HistOf(es, k)
  {
    assert (es + [x])[..|es|] == es;
  }

  lemma {:induction false} EmptyHist(es: seq<Entry>, k: WaitKey)
    requires k !in WaitKeys(es)
    ensures HistOf(es, k) == NO_WAITS
  {
    if es == [] {
    } else {
      assert es[|es|-1] in es;
      EmptyHist(es[..|es|-1], k);
    }
  }

  lemma {:induction false} SlotCounts(es: seq<Entry>, k: WaitKey, i: nat)
    requires i < SLOTS
    ensures HistOf(es, k).counts[i] == CountIf(es, SampledIn(k, i))
    ensures HistOf(es, k).count == CountIf(es, Sampled(k))
  {
    if es == [] {
    } else {
      SlotCounts(es[..|es|-1], k, i);
    }
  }

  function Running(counts: seq<nat>, i: nat): nat
    requires i < |counts|
  {
    if i == 0 then counts[0] else Running(counts, i - 1) + counts[i]
  }

  lemma BoundsIncrease(e: Event, i: nat)
    requires 0 < i < SLOTS && Within(e, i - 1)
    ensures Within(e, i)
  {}

  /** The reported cumulative count at a bound is the number of successful events of the key
      with a positive wait up to that bound; the last is all of them. */
  lemma {:induction false} CumulativeIsExact(es: seq<Entry>, k: WaitKey, i: nat)
    requires i < SLOTS
    ensures Running(HistOf(es, k).counts, i) == CountIf(es, SampledWithin(k, i))
    ensures i == SLOTS - 1 ==> Running(HistOf(es, k).counts, i) == HistOf(es, k).count
    ensures i > 0 ==> Running(HistOf(es, k).counts, i - 1) <= Running(HistOf(es, k).counts, i)
  {
    SlotCounts(es, k, i);
    if i == 0 {
      CountSame(es, SampledIn(k, 0), SampledWithin(k, 0));
    } else {
      CumulativeIsExact(es, k, i - 1);
      WithinSplits(es, k, i);
    }
    if i == SLOTS - 1 { CountSame(es, SampledWithin(k, i), Sampled(k)); }
  }

  /** Within the i-th bound: within the one before, or counted in slot i. */
  lemma WithinSplits(es: seq<Entry>, k: WaitKey, i: nat)
    requires 0 < i < SLOTS
    ensures CountIf(es, SampledWithin(k, i)) == CountIf(es, SampledWithin(k, i - 1)) + CountIf(es, SampledIn(k, i))
  {
    forall x | x in es
      ensures SampledWithin(k, i)(x) <==> SampledWithin(k, i - 1)(x) || SampledIn(k, i)(x)
      ensures !(SampledWithin(k, i - 1)(x) && SampledIn(k, i)(x))
    {
      SlotAt(x.event, i);
    }
    CountSplit(es, SampledWithin(k, i), SampledWithin(k, i - 1), SampledIn(k, i));
  }

  lemma SlotAt(e: Event, i: nat)
    requires 0 < i < SLOTS
    ensures Within(e, i) <==> Within(e, i - 1) || SlotFrom(e, 0) == i
    ensures !(Within(e, i - 1) && SlotFrom(e, 0) == i)
  {
    if Within(e, i - 1) { BoundsIncrease(e, i); }
    if Within(e, i) && !Within(e, i - 1) { NotEarlier(e, i - 1); }
  }

  function Waited(es: seq<Entry>): real {
    if es == [] then 0.0 else Waited(es[..|es|-1]) + Seconds(es[|es|-1].event)
  }

  /** The reported sum is the total wait of the `ok` events counted, and no others. */
  lemma {:induction false} SumIsExact(es: seq<Entry>, k: WaitKey)
    ensures HistOf(es, k).sum == Waited(Filter(es, Sampled(k)))
  {
    if es == [] {
    } else {
      var front, x := es[..|es|-1], es[|es|-1];
      SumIsExact(front, k);
      var f := Filter(front, Sampled(k));
      assert (f + [x])[..|f|] == f;
    }
  }

  lemma {:induction false} NotEarlier(e: Event, i: nat)
    requires i < SLOTS - 1 && !Within(e, i)
    ensures SlotFrom(e, 0) > i
  {
    var s := SlotFrom(e, 0);
    if s <= i { StaysWithin(e, s, i); }
  }

  lemma {:induction false} StaysWithin(e: Event, s: nat, i: nat)
    requires s <= i < SLOTS && Within(e, s)
    ensures Within(e, i)
    decreases i
  {
    if s == i {
    } else {
      StaysWithin(e, s, i - 1);
      BoundsIncrease(e, i);
    }
  }

  function OkOf(k: WaitKey): Entry -> bool { (x: Entry) => Outcome(x.event) == OK && WaitOf(x) == k }

  lemma SamplesAtMostOk(es: seq<Entry>, k: WaitKey)
    ensures HistOf(es, k).count <= CountIf(es, OkOf(k))
  {
    SlotCounts(es, k, 0);
    CountLess(es, Sampled(k), OkOf(k));
  }

  // ---------------------------------------------------------------------
  // The two views conserve events.

  datatype Leg = Leg(alias: string, provider: string, model: string)

  function LegOf(x: Entry): Leg { Leg(x.alias, x.event.provider, x.event.model) }
  function OnLeg(g: Leg): Entry -> bool { (x: Entry) => LegOf(x) == g }
  function FailedOn(g: Leg): Entry -> bool { (x: Entry) => LegOf(x) == g && !x.event.error.NoError? }
  function NotOkOn(g: Leg): Entry -> bool { (x: Entry) => LegOf(x) == g && Outcome(x.event) != OK }
  function SilentOn(g: Leg): Entry -> bool {
    (x: Entry) => LegOf(x) == g && x.event.firstOutputTimeout && x.event.error.NoError?
  }
  ghost function AttemptsOf(m: map<AttemptKey, nat>, g: Leg): int {
    Sum(AttemptsOn(m.Keys, g), k => if k in m then m[k] else 0)
  }

  ghost function NotOkAttemptsOf(m: map<AttemptKey, nat>, g: Leg): int {
    Sum(NotOkAttemptsOn(m.Keys, g), k => if k in m then m[k] else 0)
  }

  ghost function RequestsOf(m: map<RowKey, Bucket>, g: Leg): int {
    Sum(RowsOn(m.Keys, g), k => if k in m then m[k].requests else 0)
  }

  ghost function FailuresOf(m: map<RowKey, Bucket>, g: Leg): int {
    Sum(RowsOn(m.Keys, g), k => if k in m then m[k].failures else 0)
  }

  function AttemptsOn(ks: set<AttemptKey>, g: Leg): set<AttemptKey> {
    set k | k in ks && Leg(k.alias, k.provider, k.model) == g
  }
  function NotOkAttemptsOn(ks: set<AttemptKey>, g: Leg): set<AttemptKey> {
    set k | k in AttemptsOn(ks, g) && k.outcome != OK
  }
  function RowsOn(ks: set<RowKey>, g: Leg): set<RowKey> { set k | k in ks && Leg(k.alias, k.provider, k.model) == g }

  lemma AttemptSums(es: seq<Entry>, g: Leg)
    ensures AttemptsOf(AttemptCounts(es), g) == CountIf(es, OnLeg(g))
    ensures NotOkAttemptsOf(AttemptCounts(es), g) == CountIf(es, NotOkOn(g))
  {
    var m := AttemptCounts(es);
    AttemptCountsCount(es);
    var val := k => if k in m then m[k] else 0;
    var key, any := (x: Entry) => AttemptOf(x), (x: Entry) => true;
    forall k | k in m ensures val(k) == CountIf(es, Keyed(key, any, k)) {
      CountSame(es, AttemptIs(k), Keyed(key, any, k));
    }
    SumOfCounts(es, AttemptsOn(m.Keys, g), key, any, val, OnLeg(g));
    SumOfCounts(es, NotOkAttemptsOn(m.Keys, g), key, any, val, NotOkOn(g));
  }

  lemma RowSums(es: seq<Entry>, g: Leg)
    ensures RequestsOf(Group(es), g) == CountIf(es, OnLeg(g))
    ensures FailuresOf(Group(es), g) == CountIf(es, FailedOn(g))
  {
    var m := Group(es);
    GroupIsTotals(es);
    var key, any, bad := (x: Entry) => RowOf(x), (x: Entry) => true, (x: Entry) => !x.event.error.NoError?;
    forall k | k in m
      ensures m[k].requests == CountIf(es, Keyed(key, any, k))
      ensures m[k].failures == CountIf(es, Keyed(key, bad, k))
    {
      TotalCounts(es, k);
      CountSame(es, InRow(k), Keyed(key, any, k));
      CountSame(es, Failed(k), Keyed(key, bad, k));
    }
    SumOfCounts(es, RowsOn(m.Keys, g), key, any, k => if k in m then m[k].requests else 0, OnLeg(g));
    SumOfCounts(es, RowsOn(m.Keys, g), key, bad, k => if k in m then m[k].failures else 0, FailedOn(g));
  }

  /** Per alias, provider and model: all attempt counters are all retained plus pruned requests,
      and the non-ok ones are all failures plus those first-output timeouts that carried no error. */
  lemma ViewsConserveEvents(ops: seq<Op>, g: Leg)
    ensures AttemptsOf(AttemptCounts(Entries(ops)), g)
            == RequestsOf(Group(Kept(ops)), g) + CountIf(Pruned(ops), OnLeg(g))
    ensures NotOkAttemptsOf(AttemptCounts(Entries(ops)), g)
            == FailuresOf(Group(Kept(ops)), g) + CountIf(Pruned(ops), FailedOn(g)) + CountIf(Entries(ops), SilentOn(g))
  {
    var es := Entries(ops);
    AttemptSums(es, g);
    RowSums(Kept(ops), g);
    KeptPlusPruned(ops, OnLeg(g));
    KeptPlusPruned(ops, FailedOn(g));
    CountSplit(es, NotOkOn(g), FailedOn(g), SilentOn(g));
  }

  /** The two failure views agree exactly when every first-output timeout carried an error. */
  lemma FailureViewsAgree(ops: seq<Op>, g: Leg)
    ensures NotOkAttemptsOf(AttemptCounts(Entries(ops)), g)
            == FailuresOf(Group(Kept(ops)), g) + CountIf(Pruned(ops), FailedOn(g))
            <==> forall x :: x in Entries(ops) && LegOf(x) == g && x.event.firstOutputTimeout ==>
                   !x.event.error.NoError?
  {
    ViewsConserveEvents(ops, g);
    CountPositive(Entries(ops), SilentOn(g));
  }

  /** If the library ever reports a first-output timeout without an error, that one event is a
      non-ok attempt and not a failure. */
  lemma SilentTimeoutSplitsTheViews(x: Entry, now: int)
    requires x.event.firstOutputTimeout && x.event.error.NoError?
    ensures var ops, g := [Recorded(x, now)], LegOf(x);
            NotOkAttemptsOf(AttemptCounts(Entries(ops)), g)
            != FailuresOf(Group(Kept(ops)), g) + CountIf(Pruned(ops), FailedOn(g))
  {
    var ops := [Recorded(x, now)];
    RecordedAppends([], x, now);
    assert ops == [] + [Recorded(x, now)];
    assert x in Entries(ops);
    FailureViewsAgree(ops, LegOf(x));
  }
}
