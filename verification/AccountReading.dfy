/** What the account families and the state gauge say in terms of the recorded events and the
    breaker's reports, down to the printed lines. */
module AccountReading {
  import opened Counting
  import opened Ordering
  import opened Decimal
  import opened Exposition
  import opened AccountMetrics
  import opened PageText

  predicate Of(id: Account, e: Event) { e.provider == id.provider && e.account == id.account }

  /** The events of one kind on one leg. */
  function OnLeg(kind: Kind, leg: Leg): Event -> bool {
    (e: Event) => e.kind == kind && e.alias == leg.alias && Of(leg.id, e) && e.model == leg.model
  }

  /** The events of one kind on one account, whatever the alias and model. */
  function OnAccount(kind: Kind, id: Account): Event -> bool { (e: Event) => e.kind == kind && Of(id, e) }

  /** A counter exists once there is something to count. */
  ghost predicate Counts<K>(m: map<K, nat>, k: K, es: seq<Event>, p: Event -> bool) {
    At(m, k) == CountIf(es, p) && (k in m <==> CountIf(es, p) > 0)
  }

  lemma {:induction false} LegCounts(es: seq<Event>, kind: Kind, leg: Leg)
    ensures Counts(Tally(LegsOf(es, kind)), leg, es, OnLeg(kind, leg))
  {
    if es == [] {
    } else {
      var front, e := es[..|es|-1], es[|es|-1];
      LegCounts(front, kind, leg);
      LegsAppend(front, e, kind);
      assert es == front + [e];
    }
  }

  lemma {:induction false} SkipCounts(es: seq<Event>, leg: Leg, reason: string)
    ensures Counts(Tally(Skips(es)), Skip(leg, reason), es, OnLeg(Skipped(reason), leg))
  {
    if es == [] {
    } else {
      var front, e := es[..|es|-1], es[|es|-1];
      SkipCounts(front, leg, reason);
      SkipsAppend(front, e);
      assert es == front + [e];
    }
  }

  predicate IsMove(kind: Kind, transition: string) {
    (kind.Opened? && transition == "opened") || (kind.Closed? && transition == "closed")
  }

  /** One more event moves a transition counter only if it is of that kind, on that account. */
  lemma MoveCounted(es: seq<Event>, e: Event, id: Account, kind: Kind, transition: string)
    requires IsMove(kind, transition)
    ensures var m, next, k := Tally(Transitions(es)), Tally(Transitions(es + [e])), Transition(id, transition);
            && At(next, k) == At(m, k) + (if OnAccount(kind, id)(e) then 1 else 0)
            && (k in next <==> k in m || OnAccount(kind, id)(e))
  {
    TransitionsAppend(es, e);
    assert "opened"[0] != "closed"[0];
    if e.kind.Opened? || e.kind.Closed? {
      var word := if e.kind.Opened? then "opened" else "closed";
      assert Transition(e.Id(), word) == Transition(id, transition) <==> OnAccount(kind, id)(e);
    }
  }

  lemma {:induction false} MoveCounts(es: seq<Event>, id: Account, kind: Kind, transition: string)
    requires IsMove(kind, transition)
    ensures Counts(Tally(Transitions(es)), Transition(id, transition), es, OnAccount(kind, id))
  {
    if es == [] {
    } else {
      MoveCounts(es[..|es|-1], id, kind, transition);
      MoveCountsNext(es[..|es|-1], es[|es|-1], id, kind, transition);
      assert es == es[..|es|-1] + [es[|es|-1]];
    }
  }

  lemma {:induction false} MoveCountsNext(es: seq<Event>, e: Event, id: Account, kind: Kind, transition: string)
    requires IsMove(kind, transition)
    requires Counts(Tally(Transitions(es)), Transition(id, transition), es, OnAccount(kind, id))
    ensures Counts(Tally(Transitions(es + [e])), Transition(id, transition), es + [e], OnAccount(kind, id))
  {
    MoveCounted(es, e, id, kind, transition);
    OneMoreCounts(Tally(Transitions(es)), Tally(Transitions(es + [e])), Transition(id, transition), es, e,
                  OnAccount(kind, id));
  }

  lemma OneMoreCounts<K>(m: map<K, nat>, next: map<K, nat>, k: K, es: seq<Event>, e: Event, p: Event -> bool)
    requires Counts(m, k, es, p)
    requires At(next, k) == At(m, k) + (if p(e) then 1 else 0) && (k in next <==> k in m || p(e))
    ensures Counts(next, k, es + [e], p)
  {
    CountAppend(es, e, p);
  }

  lemma TransitionCounts(es: seq<Event>, id: Account)
    ensures Counts(Tally(Transitions(es)), Transition(id, "opened"), es, OnAccount(Opened, id))
    ensures Counts(Tally(Transitions(es)), Transition(id, "closed"), es, OnAccount(Closed, id))
  {
    MoveCounts(es, id, Opened, "opened");
    MoveCounts(es, id, Closed, "closed");
  }

  /** Each family counts the events of its own kind, by its own key. */
  lemma FamiliesByKind(es: seq<Event>, leg: Leg, reason: string)
    ensures var f := FamiliesOf(es);
            && Counts(f.transitions, Transition(leg.id, "opened"), es, OnAccount(Opened, leg.id))
            && Counts(f.transitions, Transition(leg.id, "closed"), es, OnAccount(Closed, leg.id))
            && Counts(f.skips, Skip(leg, reason), es, OnLeg(Skipped(reason), leg))
            && Counts(f.probes, leg, es, OnLeg(Probing, leg))
            && Counts(f.failOpens, leg, es, OnLeg(FailOpen, leg))
            && Counts(f.unrecognized429, leg, es, OnLeg(Unrecognized429, leg))
  {
    TransitionCounts(es, leg.id);
    SkipCounts(es, leg, reason);
    LegCounts(es, Probing, leg);
    LegCounts(es, FailOpen, leg);
    LegCounts(es, Unrecognized429, leg);
  }

  // ---------------------------------------------------------------------
  // The state of an account

  /** The report at position i is the last one of its account. */
  predicate LastOf(circuits: seq<Circuit>, i: int, id: Account) {
    0 <= i < |circuits| && circuits[i].id == id && forall j :: i < j < |circuits| ==> circuits[j].id != id
  }

  lemma {:induction false} StateOfReports(seen: set<Account>, circuits: seq<Circuit>, id: Account)
    ensures var states := StatesOf(seen, circuits);
            && (id in states <==> id in seen || exists c :: c in circuits && c.id == id)
            && (id in states && (forall c :: c in circuits ==> c.id != id) ==> states[id] == "closed")
            && forall i :: LastOf(circuits, i, id) ==> id in states && states[id] == circuits[i].state
  {
    if circuits == [] {
    } else {
      var front, last := circuits[..|circuits|-1], circuits[|circuits|-1];
      StateOfReports(seen, front, id);
      assert circuits == front + [last];
      forall i | LastOf(circuits, i, id)
        ensures id in StatesOf(seen, circuits) && StatesOf(seen, circuits)[id] == circuits[i].state
      {
        LastOfFront(front, last, i, id);
      }
    }
  }

  lemma LastOfFront(front: seq<Circuit>, last: Circuit, i: int, id: Account)
    requires LastOf(front + [last], i, id)
    ensures i == |front| || (LastOf(front, i, id) && last.id != id && (front + [last])[i] == front[i])
  {
    var all := front + [last];
    assert all[|front|] == last;
    assert forall j :: 0 <= j < |front| ==> all[j] == front[j];
  }

  /** The last report of an account decides; one that only had an event is closed, and there are no others. */
  lemma StateByReport(es: seq<Event>, circuits: seq<Circuit>, id: Account)
    ensures var states := StatesOf(SeenIn(es), circuits);
            && (id in states <==> (exists e :: e in es && Of(id, e)) || exists c :: c in circuits && c.id == id)
            && (id in states && (forall c :: c in circuits ==> c.id != id) ==> states[id] == "closed")
            && forall i :: LastOf(circuits, i, id) ==> id in states && states[id] == circuits[i].state
  {
    StateOfReports(SeenIn(es), circuits, id);
    assert id in SeenIn(es) <==> exists e :: e in es && Of(id, e);
  }

  // ---------------------------------------------------------------------
  // The printed lines

  function AccountText(id: Account): seq<Label> { [Label("provider", id.provider), Label("account", id.account)] }

  function LegText(l: Leg): seq<Label> {
    [Label("alias", l.alias), Label("provider", l.id.provider), Label("account", l.id.account), Label("model", l.model)]
  }

  lemma LegBlockSays(l: Leg)
    ensures TextOf(ProbeLabels())(l) == Comma(Pairs(LegText(l)))
  {
    assert LegLabels(l) == LegText(l);
    BlockIsComma(LegText(l));
  }

  lemma SkipBlockSays(l: Leg, reason: string)
    ensures TextOf(SkipLabels())(Skip(l, reason)) == Comma(Pairs(LegText(l) + [Label("reason", reason)]))
  {
    assert LegLabels(l) == LegText(l);
    BlockIsComma(LegText(l) + [Label("reason", reason)]);
  }

  lemma TransitionBlockSays(id: Account, transition: string)
    ensures TextOf(TransitionLabels())(Transition(id, transition))
            == Comma(Pairs(AccountText(id) + [Label("transition", transition)]))
  {
    BlockIsComma(AccountText(id) + [Label("transition", transition)]);
  }

  /** A counter's line as the source formats it. */
  function Line(name: string, labels: seq<Label>, n: nat): string {
    name + "{" + (Comma(Pairs(labels)) + "}" + (" " + Digits(n)))
  }

  lemma {:induction false} RowIsALine(name: string, rows: seq<Series>, r: Series)
    requires r in rows
    ensures FamilyLine(name, r) in FamilyLines(name, rows)
  {
    var front, last := rows[..|rows|-1], rows[|rows|-1];
    assert rows == front + [last];
    if r == last {
      assert FamilyLines(name, rows)[|FamilyLines(name, front)|] == FamilyLine(name, r);
    } else {
      RowIsALine(name, front, r);
    }
  }

  lemma CounterIsPrinted<K(!new)>(name: string, rows: seq<Series>, counts: map<K, nat>, text: K -> string, k: K,
                                  labels: seq<Label>, help: HelpText)
    requires Table(rows, counts, text) && k in counts && text(k) == Comma(Pairs(labels))
    ensures Line(name, labels, counts[k]) in Family(name, rows, help)
  {
    RowIsALine(name, rows, Series(text(k), counts[k]));
  }

  /** From the events to the page: every counter with something to count is on it, under the
      name of its family and its own labels, with the number of its events. */
  lemma ProbesArePrinted(t: Tables, es: seq<Event>, circuits: seq<Circuit>, help: HelpText, leg: Leg)
    requires IsTables(t, es, circuits)
    ensures var page := TableLines(t, StatesOf(SeenIn(es), circuits), help);
            && (CountIf(es, OnLeg(Probing, leg)) > 0 ==>
                  Line("smolllm_account" + "_circuit" + "_probes_total", LegText(leg),
                       CountIf(es, OnLeg(Probing, leg)))
                  in page)
            && (CountIf(es, OnLeg(FailOpen, leg)) > 0 ==>
                  Line("smolllm_account" + "_circuit" + "_fail_open_total", LegText(leg),
                       CountIf(es, OnLeg(FailOpen, leg)))
                  in page)
            && (CountIf(es, OnLeg(Unrecognized429, leg)) > 0 ==>
                  Line("smolllm_unrecognized" + "_structured_429_total", LegText(leg),
                       CountIf(es, OnLeg(Unrecognized429, leg)))
                  in page)
  {
    if CountIf(es, OnLeg(Probing, leg)) > 0 { OneProbeIsPrinted(t, es, circuits, help, leg); }
    if CountIf(es, OnLeg(FailOpen, leg)) > 0 { OneFailOpenIsPrinted(t, es, circuits, help, leg); }
    if CountIf(es, OnLeg(Unrecognized429, leg)) > 0 { One429IsPrinted(t, es, circuits, help, leg); }
  }

  lemma OneProbeIsPrinted(t: Tables, es: seq<Event>, circuits: seq<Circuit>, help: HelpText, leg: Leg)
    requires IsTables(t, es, circuits) && CountIf(es, OnLeg(Probing, leg)) > 0
    ensures Line("smolllm_account" + "_circuit" + "_probes_total", LegText(leg), CountIf(es, OnLeg(Probing, leg)))
            in TableLines(t, StatesOf(SeenIn(es), circuits), help)
  {
    LegCounts(es, Probing, leg);
    ProbeOnPage(PROBES, t.probes, FamiliesOf(es).probes, leg, help);
  }

  lemma OneFailOpenIsPrinted(t: Tables, es: seq<Event>, circuits: seq<Circuit>, help: HelpText, leg: Leg)
    requires IsTables(t, es, circuits) && CountIf(es, OnLeg(FailOpen, leg)) > 0
    ensures Line("smolllm_account" + "_circuit" + "_fail_open_total", LegText(leg), CountIf(es, OnLeg(FailOpen, leg)))
            in TableLines(t, StatesOf(SeenIn(es), circuits), help)
  {
    LegCounts(es, FailOpen, leg);
    ProbeOnPage(FAIL_OPENS, t.failOpens, FamiliesOf(es).failOpens, leg, help);
  }

  lemma One429IsPrinted(t: Tables, es: seq<Event>, circuits: seq<Circuit>, help: HelpText, leg: Leg)
    requires IsTables(t, es, circuits) && CountIf(es, OnLeg(Unrecognized429, leg)) > 0
    ensures Line("smolllm_unrecognized" + "_structured_429_total", LegText(leg),
                 CountIf(es, OnLeg(Unrecognized429, leg)))
            in TableLines(t, StatesOf(SeenIn(es), circuits), help)
  {
    LegCounts(es, Unrecognized429, leg);
    ProbeOnPage(UNRECOGNIZED, t.unrecognized429, FamiliesOf(es).unrecognized429, leg, help);
  }

  lemma ProbeOnPage(name: string, rows: seq<Series>, counts: map<Leg, nat>, leg: Leg, help: HelpText)
    requires Table(rows, counts, TextOf(ProbeLabels())) && leg in counts
    ensures Line(name, LegText(leg), counts[leg]) in Family(name, rows, help)
  {
    LegBlockSays(leg);
    CounterIsPrinted(name, rows, counts, TextOf(ProbeLabels()), leg, LegText(leg), help);
  }

  lemma SkipsArePrinted(t: Tables, es: seq<Event>, circuits: seq<Circuit>, help: HelpText, leg: Leg, reason: string)
    requires IsTables(t, es, circuits) && CountIf(es, OnLeg(Skipped(reason), leg)) > 0
    ensures Line("smolllm_account" + "_circuit" + "_skips_total", LegText(leg) + [Label("reason", reason)],
                 CountIf(es, OnLeg(Skipped(reason), leg)))
            in TableLines(t, StatesOf(SeenIn(es), circuits), help)
  {
    FamiliesByKind(es, leg, reason);
    SkipBlockSays(leg, reason);
    CounterIsPrinted(SKIPS, t.skips, FamiliesOf(es).skips, TextOf(SkipLabels()), Skip(leg, reason),
                     LegText(leg) + [Label("reason", reason)], help);
  }

  lemma TransitionsArePrinted(t: Tables, es: seq<Event>, circuits: seq<Circuit>, help: HelpText, id: Account)
    requires IsTables(t, es, circuits)
    ensures var page, name := TableLines(t, StatesOf(SeenIn(es), circuits), help),
                              "smolllm_account" + "_circuit" + "_transitions_total";
            && (CountIf(es, OnAccount(Opened, id)) > 0 ==>
                  Line(name, AccountText(id) + [Label("transition", "opened")], CountIf(es, OnAccount(Opened, id)))
                  in page)
            && (CountIf(es, OnAccount(Closed, id)) > 0 ==>
                  Line(name, AccountText(id) + [Label("transition", "closed")], CountIf(es, OnAccount(Closed, id)))
                  in page)
  {
    if CountIf(es, OnAccount(Opened, id)) > 0 { TransitionIsPrinted(t, es, circuits, help, id, Opened, "opened"); }
    if CountIf(es, OnAccount(Closed, id)) > 0 { TransitionIsPrinted(t, es, circuits, help, id, Closed, "closed"); }
  }

  lemma TransitionIsPrinted(t: Tables, es: seq<Event>, circuits: seq<Circuit>, help: HelpText, id: Account, kind: Kind,
                            word: string)
    requires IsTables(t, es, circuits) && IsMove(kind, word) && CountIf(es, OnAccount(kind, id)) > 0
    ensures Line("smolllm_account" + "_circuit" + "_transitions_total", AccountText(id) + [Label("transition", word)],
                 CountIf(es, OnAccount(kind, id)))
            in TableLines(t, StatesOf(SeenIn(es), circuits), help)
  {
    MoveCounts(es, id, kind, word);
    TransitionOnPage(t.transitions, FamiliesOf(es).transitions, id, word, help);
  }

  lemma TransitionOnPage(rows: seq<Series>, counts: map<Transition, nat>, id: Account, transition: string,
                         help: HelpText)
    requires Table(rows, counts, TextOf(TransitionLabels())) && Transition(id, transition) in counts
    ensures Line(TRANSITIONS, AccountText(id) + [Label("transition", transition)], counts[Transition(id, transition)])
            in Family(TRANSITIONS, rows, help)
  {
    TransitionBlockSays(id, transition);
    CounterIsPrinted(TRANSITIONS, rows, counts, TextOf(TransitionLabels()), Transition(id, transition),
                     AccountText(id) + [Label("transition", transition)], help);
  }

  /** An account's three gauge lines: closed, open and half-open, with a 1 at its state. */
  lemma GaugeLinesSay(states: map<Account, string>, id: Account)
    requires id in states
    ensures var name := "smolllm_account" + "_circuit" + "_state";
            StatesOfOne(states, id)
            == [Line(name, AccountText(id) + [Label("state", "closed")], if states[id] == "closed" then 1 else 0),
                Line(name, AccountText(id) + [Label("state", "open")], if states[id] == "open" then 1 else 0),
                Line(name, AccountText(id) + [Label("state", "half_open")], if states[id] == "half_open" then 1 else 0)]
  {
    StateBlockSays(id, "closed");
    StateBlockSays(id, "open");
    StateBlockSays(id, "half_open");
  }

  lemma StateBlockSays(id: Account, state: string)
    ensures Block(StateLabels(id, state)) == Comma(Pairs(AccountText(id) + [Label("state", state)]))
  {
    BlockIsComma(AccountText(id) + [Label("state", state)]);
  }

  /** A family is a help line, a type line and its series, or nothing at all without series. */
  lemma FamilySays(name: string, rows: seq<Series>, help: HelpText)
    ensures rows == [] ==> Family(name, rows, help) == []
    ensures rows != [] ==>
              Family(name, rows, help)
              == ["# HELP " + (name + (" " + help(name))), "# TYPE " + (name + (" " + "counter"))]
                 + FamilyLines(name, rows)
  {}

  /** The page: the five families and then the gauge, in this order; nothing at all before the first event. */
  lemma TablesInOrder(t: Tables, states: map<Account, string>, help: HelpText)
    requires forall id :: id in t.ids ==> id in states
    ensures var circuit, gauge := "smolllm_account" + "_circuit", "smolllm_account" + "_circuit" + "_state";
            TableLines(t, states, help)
            == Family(circuit + "_transitions_total", t.transitions, help)
               + Family(circuit + "_skips_total", t.skips, help)
               + Family(circuit + "_probes_total", t.probes, help)
               + Family(circuit + "_fail_open_total", t.failOpens, help)
               + Family("smolllm_unrecognized" + "_structured_429_total", t.unrecognized429, help)
               + if t.ids == [] then []
                 else ["# HELP " + (gauge + (" " + help(gauge))), "# TYPE " + (gauge + (" " + "gauge"))]
                      + StateLines(states, t.ids)
  {}

  lemma NothingBeforeEvents(t: Tables, help: HelpText)
    requires IsTables(t, [], [])
    ensures TableLines(t, StatesOf(SeenIn([]), []), help) == []
  {
    assert |t.ids| == |multiset(t.ids)| == 0;
  }

  /** Series are sorted by their label text, accounts by provider and account. */
  lemma SeriesOrder(rows: seq<Series>, i: nat, j: nat)
    requires Sorted(rows, SeriesRank()) && i < j < |rows|
    ensures !Earlier(rows[j].labels, rows[i].labels)
  {
    ChainIsRankLess([rows[j].labels], [rows[i].labels]);
    OneName(rows[j].labels, rows[i].labels);
    assert !Before(SeriesRank()(rows[j]), SeriesRank()(rows[i]));
  }

  lemma OneName(a: string, b: string)
    ensures Chain([a], [b]) <==> Earlier(a, b)
  {
    assert [a][..0] == [b][..0];
  }

  lemma AccountOrder(ids: seq<Account>, i: nat, j: nat)
    requires Sorted(ids, IdRank()) && i < j < |ids|
    ensures !Chain([ids[j].provider, ids[j].account], [ids[i].provider, ids[i].account])
  {
    ChainIsRankLess([ids[j].provider, ids[j].account], [ids[i].provider, ids[i].account]);
    assert !Before(IdRank()(ids[j]), IdRank()(ids[i]));
  }
}
