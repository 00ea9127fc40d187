/** What the ledger's views say in terms of the events' own fields: outcomes and phases, waits in
    nanoseconds, days and columns, with the constants of the source written out. */
module LedgerReading {
  import opened Counting
  import opened LedgerHistory
  import opened Ordering
  import Ledger

  // ---------------------------------------------------------------------
  // Attempt counters

  predicate On(g: Leg, x: Entry) {
    x.alias == g.alias && x.event.provider == g.provider && x.event.model == g.model
  }

  /** Successes, failures and cancellations of one leg and transport mode, by the event's fields. */
  function Ended(g: Leg, streaming: bool, error: Failure): Entry -> bool {
    (x: Entry) => On(g, x) && x.event.streaming == streaming && !x.event.firstOutputTimeout && x.event.error == error
  }

  /** Budgets that ran out in some phase, whatever error came with it. */
  function TimedOut(g: Leg, streaming: bool, phase: string): Entry -> bool {
    (x: Entry) => On(g, x) && x.event.streaming == streaming && x.event.firstOutputTimeout && x.event.phase == phase
  }

  lemma CounterIs(es: seq<Entry>, k: AttemptKey, p: Entry -> bool)
    requires forall x :: x in es ==> (AttemptOf(x) == k <==> p(x))
    ensures At(AttemptCounts(es), k) == CountIf(es, p)
  {
    AttemptCountsCount(es);
    CountSame(es, AttemptIs(k), p);
    CountPositive(es, AttemptIs(k));
  }

  /** Each counter is the number of events that ended that way on its leg, in its transport mode. */
  lemma CountersByOutcome(es: seq<Entry>, g: Leg, streaming: bool, phase: string)
    ensures var m := AttemptCounts(es);
            && At(m, AttemptKey(g.alias, g.provider, g.model, "ok", "", streaming))
               == CountIf(es, Ended(g, streaming, NoError))
            && At(m, AttemptKey(g.alias, g.provider, g.model, "error", "", streaming))
               == CountIf(es, Ended(g, streaming, OtherError))
            && At(m, AttemptKey(g.alias, g.provider, g.model, "canceled", "", streaming))
               == CountIf(es, Ended(g, streaming, CancelledByCaller))
            && At(m, AttemptKey(g.alias, g.provider, g.model, "first_output_timeout", phase, streaming))
               == CountIf(es, TimedOut(g, streaming, phase))
  {
    CounterIs(es, AttemptKey(g.alias, g.provider, g.model, "ok", "", streaming), Ended(g, streaming, NoError));
    CounterIs(es, AttemptKey(g.alias, g.provider, g.model, "error", "", streaming), Ended(g, streaming, OtherError));
    CounterIs(es, AttemptKey(g.alias, g.provider, g.model, "canceled", "", streaming),
              Ended(g, streaming, CancelledByCaller));
    CounterIs(es, AttemptKey(g.alias, g.provider, g.model, "first_output_timeout", phase, streaming),
              TimedOut(g, streaming, phase));
  }

  /** And there are no others: four outcomes, with a phase for budgets that ran out only. */
  lemma NoOtherCounters(es: seq<Entry>)
    ensures forall k :: k in AttemptCounts(es) ==>
              && k.outcome in {"ok", "error", "canceled", "first_output_timeout"}
              && (k.outcome != "first_output_timeout" ==> k.phase == "")
  {
    AttemptCountsCount(es);
  }

  /** The counters of a leg with some outcome, over phases and transport modes. */
  function KeysWith(m: map<AttemptKey, nat>, g: Leg, outcome: string): set<AttemptKey> {
    set k | k in m.Keys && k.alias == g.alias && k.provider == g.provider && k.model == g.model && k.outcome == outcome
  }

  ghost function OutcomeTotal(m: map<AttemptKey, nat>, g: Leg, outcome: string): int {
    Sum(KeysWith(m, g, outcome), k => At(m, k))
  }

  lemma OutcomeTotalIs(es: seq<Entry>, g: Leg, outcome: string, p: Entry -> bool)
    requires forall x :: x in es ==> (p(x) <==> On(g, x) && AttemptOf(x).outcome == outcome)
    ensures OutcomeTotal(AttemptCounts(es), g, outcome) == CountIf(es, p)
  {
    var m := AttemptCounts(es);
    AttemptCountsCount(es);
    var key, any := (x: Entry) => AttemptOf(x), (x: Entry) => true;
    forall k | k in m ensures At(m, k) == CountIf(es, Keyed(key, any, k)) {
      CountSame(es, AttemptIs(k), Keyed(key, any, k));
    }
    SumOfCounts(es, KeysWith(m, g, outcome), key, any, k => At(m, k), p);
  }

  /** Per leg: what a cancelled, failed, successful or queued attempt is counted as. */
  lemma TotalsByOutcome(es: seq<Entry>, g: Leg)
    ensures var m := AttemptCounts(es);
            && OutcomeTotal(m, g, "canceled")
               == CountIf(es, (x: Entry) => On(g, x) && !x.event.firstOutputTimeout && x.event.error.CancelledByCaller?)
            && OutcomeTotal(m, g, "error")
               == CountIf(es, (x: Entry) => On(g, x) && !x.event.firstOutputTimeout && x.event.error.OtherError?)
            && OutcomeTotal(m, g, "ok")
               == CountIf(es, (x: Entry) => On(g, x) && !x.event.firstOutputTimeout && x.event.error.NoError?)
            && OutcomeTotal(m, g, "first_output_timeout")
               == CountIf(es, (x: Entry) => On(g, x) && x.event.firstOutputTimeout)
  {
    OutcomeTotalIs(es, g, "canceled",
                   (x: Entry) => On(g, x) && !x.event.firstOutputTimeout && x.event.error.CancelledByCaller?);
    OutcomeTotalIs(es, g, "error", (x: Entry) => On(g, x) && !x.event.firstOutputTimeout && x.event.error.OtherError?);
    OutcomeTotalIs(es, g, "ok", (x: Entry) => On(g, x) && !x.event.firstOutputTimeout && x.event.error.NoError?);
    OutcomeTotalIs(es, g, "first_output_timeout", (x: Entry) => On(g, x) && x.event.firstOutputTimeout);
  }

  // ---------------------------------------------------------------------
  // Waits

  /** The histogram edges in nanoseconds. */
  const EDGES: seq<int> := [
    500_000_000, 1_000_000_000, 2_000_000_000, 5_000_000_000, 10_000_000_000, 20_000_000_000,
    30_000_000_000, 60_000_000_000, 120_000_000_000]

  /** A successful attempt of the key that waited, and no longer than the i-th edge if there is one. */
  function WaitedWithin(k: WaitKey, i: nat): Entry -> bool {
    (x: Entry) =>
      && x.alias == k.alias && x.event.provider == k.provider && x.event.model == k.model
      && x.event.streaming == k.streaming && !x.event.firstOutputTimeout && x.event.error.NoError?
      && 0 < x.event.ttft && (i < |EDGES| ==> x.event.ttft <= EDGES[i])
  }

  lemma EdgeIsBound(e: Event, i: nat)
    ensures Within(e, i) <==> (i < |EDGES| ==> e.ttft <= EDGES[i])
  {
    if i < |EDGES| { ScaledBound(e.ttft, EDGES[i], BOUNDS[i], i); }
  }

  lemma ScaledBound(ttft: int, edge: int, bound: real, i: nat)
    requires i < |EDGES| && edge == EDGES[i] && bound == BOUNDS[i]
    ensures ttft as real / 1000000000.0 <= bound <==> ttft <= edge
  {
    assert edge as real == bound * 1000000000.0;
  }

  function Nanoseconds(es: seq<Entry>, p: Entry -> bool): int {
    if es == [] then 0 else Nanoseconds(es[..|es|-1], p) + if p(es[|es|-1]) then es[|es|-1].event.ttft else 0
  }

  lemma {:induction false} SumInNanoseconds(es: seq<Entry>, k: WaitKey)
    ensures HistOf(es, k).sum * 1000000000.0 == Nanoseconds(es, WaitedWithin(k, |EDGES|)) as real
  {
    if es == [] {
    } else {
      SumInNanoseconds(es[..|es|-1], k);
      assert Sampled(k)(es[|es|-1]) <==> WaitedWithin(k, |EDGES|)(es[|es|-1]);
    }
  }

  /** A reported histogram: cumulative counts by edge, the last one without an edge, the total
      wait, and the number of waits, of exactly the successful attempts of the key that waited. */
  lemma WaitsByEdge(es: seq<Entry>, k: WaitKey, i: nat)
    requires i < 10
    ensures var s := Ledger.SampleOf(es, k);
            && |s.cumulative| == 10 && s.cumulative[i] == CountIf(es, WaitedWithin(k, i))
            && s.count == CountIf(es, WaitedWithin(k, 9))
            && s.sum * 1000000000.0 == Nanoseconds(es, WaitedWithin(k, 9)) as real
    ensures k in WaitKeys(es) <==> CountIf(es, WaitedWithin(k, 9)) > 0
  {
    CumulativeIsExact(es, k, i);
    CumulativeIsExact(es, k, 9);
    SumInNanoseconds(es, k);
    SameWaits(es, k, i);
    SameWaits(es, k, 9);
    CountPositive(es, WaitedWithin(k, 9));
    forall x | x in es ensures IsSample(x) && WaitOf(x) == k <==> WaitedWithin(k, 9)(x) {}
  }

  lemma SameWaits(es: seq<Entry>, k: WaitKey, i: nat)
    requires i < 10
    ensures CountIf(es, SampledWithin(k, i)) == CountIf(es, WaitedWithin(k, i))
  {
    forall x | x in es ensures SampledWithin(k, i)(x) == WaitedWithin(k, i)(x) { EdgeIsBound(x.event, i); }
    CountSame(es, SampledWithin(k, i), WaitedWithin(k, i));
  }

  // ---------------------------------------------------------------------
  // Rows

  /** The events of one UTC day, alias, provider and model. */
  function OfRow(k: RowKey): Entry -> bool {
    (x: Entry) =>
      x.event.time / 86400 == k.day && x.alias == k.alias && x.event.provider == k.provider && x.event.model == k.model
  }

  /** A number summed over the events of a row. */
  function Over(es: seq<Entry>, k: RowKey, f: Event -> int): int {
    if es == [] then 0 else Over(es[..|es|-1], k, f) + if OfRow(k)(es[|es|-1]) then f(es[|es|-1].event) else 0
  }

  function One(b: bool): int { if b then 1 else 0 }

  /** A row, column by column, in terms of the fields of its events. */
  ghost predicate IsRow(b: Bucket, es: seq<Entry>, k: RowKey) {
    && b.requests == Over(es, k, e => 1)
    && b.failures == Over(es, k, (e: Event) => One(!e.error.NoError?))
    && b.input == Over(es, k, (e: Event) => e.input)
    && b.output == Over(es, k, (e: Event) => e.output)
    && b.cacheRead == Over(es, k, (e: Event) => e.cacheRead)
    && b.cacheWrite == Over(es, k, (e: Event) => e.cacheWrite)
    && b.cacheReportedRequests == Over(es, k, (e: Event) => One(e.readReported))
    && b.cacheReportedInput == Over(es, k, (e: Event) => if e.readReported then e.input else 0)
    && b.estimated == Over(es, k, (e: Event) => One(e.estimated))
  }

  lemma {:induction false} TotalIsRow(es: seq<Entry>, k: RowKey)
    ensures IsRow(Total(es, k), es, k)
  {
    if es == [] {
    } else {
      TotalIsRow(es[..|es|-1], k);
    }
  }

  /** The rows a snapshot lists under a clock that never goes back: those of days no more than 31
      before the current one that have events, each with the sums over all its events. */
  lemma RowsByDay(ops: seq<Op>, k: RowKey)
    requires ops != [] && ClockNeverGoesBack(ops)
    ensures var rows, es := Group(Kept(ops)), Entries(ops);
            && (k in rows <==> k.day >= ops[|ops|-1].now / 86400 - 31 && exists x :: x in es && OfRow(k)(x))
            && (k in rows ==> IsRow(rows[k], es, k))
  {
    var es, c := Entries(ops), Cutoff(ops[|ops|-1].now);
    var kept := Filter(es, DayFrom(c));
    SteadyClockKeepsWindow(ops);
    CutoffIs(ops[|ops|-1].now);
    GroupIsTotals(kept);
    FilterMember(es, DayFrom(c));
    if k.day >= c {
      TotalOfFilter(es, c, k);
      TotalIsRow(es, k);
    }
    assert k in Rows(kept) <==> exists x :: x in kept && OfRow(k)(x);
  }

  lemma CutoffIs(now: int)
    ensures Cutoff(now) == now / 86400 - 31
  {}

  // ---------------------------------------------------------------------
  // The order of the views

  /** Oldest day first, then by alias, provider and model. */
  lemma SnapshotOrder(rows: seq<(RowKey, Bucket)>, i: nat, j: nat)
    requires Sorted(rows, Ledger.RowRank()) && i < j < |rows|
    ensures var a, b := rows[i].0, rows[j].0;
            || a.day < b.day
            || (a.day == b.day && !Chain([b.alias, b.provider, b.model], [a.alias, a.provider, a.model]))
  {
    ChainIsRankLess([rows[j].0.alias, rows[j].0.provider, rows[j].0.model],
                    [rows[i].0.alias, rows[i].0.provider, rows[i].0.model]);
    assert !Before(Ledger.RowRank()(rows[j]), Ledger.RowRank()(rows[i]));
  }

  lemma AttemptOrder(out: seq<(AttemptKey, nat)>, i: nat, j: nat)
    requires Sorted(out, Ledger.AttemptRank()) && i < j < |out|
    ensures var a, b := out[i].0, out[j].0;
            !Chain([b.alias, b.model, b.outcome, b.phase], [a.alias, a.model, a.outcome, a.phase])
  {
    var a, b := out[i].0, out[j].0;
    ChainIsRankLess([b.alias, b.model, b.outcome, b.phase], [a.alias, a.model, a.outcome, a.phase]);
    assert !Before(Ledger.AttemptRank()(out[j]), Ledger.AttemptRank()(out[i]));
  }

  lemma SampleOrder(out: seq<Ledger.Sample>, i: nat, j: nat)
    requires Sorted(out, Ledger.SampleRank()) && i < j < |out|
    ensures !Chain([out[j].key.alias, out[j].key.model], [out[i].key.alias, out[i].key.model])
  {
    ChainIsRankLess([out[j].key.alias, out[j].key.model], [out[i].key.alias, out[i].key.model]);
    assert !Before(Ledger.SampleRank()(out[j]), Ledger.SampleRank()(out[i]));
  }
}
