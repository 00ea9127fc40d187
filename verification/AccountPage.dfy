/** The account page as the exporter receives it: no line is read as a sample, and with clean
    names every line arrives as one line. */
module AccountPage {
  import opened AccountMetrics
  import opened Exposition
  import opened Decimal
  import Exporter

  // ---------------------------------------------------------------------
  // What the exporter reads in these lines: no sample.

  /** A family name no exporter pattern starts like. */
  predicate Foreign(name: string) { |name| > 9 && name[0] == 's' && name[9] != 't' }

  lemma NamesAreForeign()
    ensures Foreign(TRANSITIONS) && Foreign(SKIPS) && Foreign(PROBES) && Foreign(FAIL_OPENS) && Foreign(UNRECOGNIZED)
            && Foreign(STATE_GAUGE)
  {
    CircuitIsForeign("_transitions_total");
    CircuitIsForeign("_skips_total");
    CircuitIsForeign("_probes_total");
    CircuitIsForeign("_fail_open_total");
    CircuitIsForeign("_state");
    UnrecognizedIsForeign();
  }

  lemma CircuitIsForeign(suffix: string)
    ensures Foreign(CIRCUIT + suffix)
  {
    var p := "smolllm_account";
    assert |p| == 15 && p[0] == 's' && p[9] == 'c';
  }

  lemma UnrecognizedIsForeign()
    ensures Foreign(UNRECOGNIZED)
  {
    var p := "smolllm_unrecognized";
    assert |p| == 20 && p[0] == 's' && p[9] == 'n';
  }

  lemma ForeignLineIsNotASample(name: string, labels: string, n: nat)
    requires Foreign(name)
    ensures Exporter.Read(SampleLine(name + "{", labels, Digits(n))) == Exporter.Other
  {
    var line := SampleLine(name + "{", labels, Digits(n));
    assert line[0] == name[0] && line[9] == name[9];
    forall kind: Exporter.Kind ensures !(Exporter.Head(kind) <= line) && !("#" <= line) {
      assert Exporter.Head(kind)[9] == 't';
    }
    Exporter.OnlyReading(Exporter.CASES, Exporter.AttemptCounter, line);
  }

  /** The exporter passes a family's series through as they are. */
  lemma {:induction false} FamiliesAreNotSamples(name: string, rows: seq<Series>)
    requires Foreign(name)
    ensures forall i :: 0 <= i < |FamilyLines(name, rows)| ==>
            Exporter.Read(FamilyLines(name, rows)[i]) == Exporter.Other
  {
    if rows == [] {
    } else {
      FamiliesAreNotSamples(name, rows[..|rows|-1]);
      ForeignLineIsNotASample(name, rows[|rows|-1].labels, rows[|rows|-1].value);
    }
  }

  lemma {:induction false} StatesAreNotSamples(states: map<Account, string>, ids: seq<Account>)
    requires forall id :: id in ids ==> id in states
    ensures Exporter.NotSamples(StateLines(states, ids))
  {
    if ids == [] {
    } else {
      var front, id := ids[..|ids|-1], ids[|ids|-1];
      StatesAreNotSamples(states, front);
      OneAccountIsNotASample(states, id);
    }
  }

  lemma OneAccountIsNotASample(states: map<Account, string>, id: Account)
    requires id in states
    ensures Exporter.NotSamples(StatesOfOne(states, id))
  {
    StateLineIsNotASample(states, id, CIRCUIT_STATES[0]);
    StateLineIsNotASample(states, id, CIRCUIT_STATES[1]);
    StateLineIsNotASample(states, id, CIRCUIT_STATES[2]);
    ThreeNotSamples(StateLine(states, id, CIRCUIT_STATES[0]), StateLine(states, id, CIRCUIT_STATES[1]),
                    StateLine(states, id, CIRCUIT_STATES[2]));
  }

  lemma ThreeNotSamples(x: string, y: string, z: string)
    requires !Exporter.Read(x).Sample? && !Exporter.Read(y).Sample? && !Exporter.Read(z).Sample?
    ensures Exporter.NotSamples([x, y, z])
  {}

  lemma StateLineIsNotASample(states: map<Account, string>, id: Account, state: string)
    requires id in states
    ensures Exporter.Read(StateLine(states, id, state)) == Exporter.Other
  {
    NamesAreForeign();
    ForeignLineIsNotASample(STATE_GAUGE, Block(StateLabels(id, state)), StateValue(states, id, state));
  }

  lemma HeaderIsNotASample(name: string, kind: string, help: HelpText)
    ensures Exporter.NotSamples(Header(name, kind, help))
  {
    var h := Header(name, kind, help);
    assert h[0][0] == '#' && h[1][0] == '#';
    assert "#" <= h[0] && "#" <= h[1];
  }

  lemma NotSamplesConcat(a: seq<string>, b: seq<string>)
    ensures Exporter.NotSamples(a + b) <==> Exporter.NotSamples(a) && Exporter.NotSamples(b)
  {
    assert forall i :: 0 <= i < |a| ==> (a + b)[i] == a[i];
    assert forall i :: 0 <= i < |b| ==> (a + b)[|a| + i] == b[i];
  }

  lemma FamilyIsNotSamples(name: string, rows: seq<Series>, help: HelpText)
    requires Foreign(name)
    ensures Exporter.NotSamples(Family(name, rows, help))
  {
    HeaderIsNotASample(name, "counter", help);
    FamiliesAreNotSamples(name, rows);
    NotSamplesConcat(Header(name, "counter", help), FamilyLines(name, rows));
  }

  /** Nothing the account counters print is read as a sample. */
  lemma TablesAreNotSamples(t: Tables, states: map<Account, string>, help: HelpText)
    requires forall id :: id in t.ids ==> id in states
    ensures Exporter.NotSamples(TableLines(t, states, help))
  {
    NamesAreForeign();
    FamilyIsNotSamples(TRANSITIONS, t.transitions, help);
    FamilyIsNotSamples(SKIPS, t.skips, help);
    FamilyIsNotSamples(PROBES, t.probes, help);
    FamilyIsNotSamples(FAIL_OPENS, t.failOpens, help);
    FamilyIsNotSamples(UNRECOGNIZED, t.unrecognized429, help);
    GaugeIsNotSamples(states, t.ids, help);
    SixNotSamples(Family(TRANSITIONS, t.transitions, help), Family(SKIPS, t.skips, help),
                  Family(PROBES, t.probes, help),
                  Family(FAIL_OPENS, t.failOpens, help), Family(UNRECOGNIZED, t.unrecognized429, help),
                  Gauge(states, t.ids, help));
  }

  lemma GaugeIsNotSamples(states: map<Account, string>, ids: seq<Account>, help: HelpText)
    requires forall id :: id in ids ==> id in states
    ensures Exporter.NotSamples(Gauge(states, ids, help))
  {
    HeaderIsNotASample(STATE_GAUGE, "gauge", help);
    StatesAreNotSamples(states, ids);
    NotSamplesConcat(Header(STATE_GAUGE, "gauge", help), StateLines(states, ids));
  }

  lemma SixNotSamples(a: seq<string>, b: seq<string>, c: seq<string>, d: seq<string>, e: seq<string>, f: seq<string>)
    ensures Exporter.NotSamples(a + b + c + d + e + f)
            <==> Exporter.NotSamples(a) && Exporter.NotSamples(b) && Exporter.NotSamples(c)
                 && Exporter.NotSamples(d) && Exporter.NotSamples(e) && Exporter.NotSamples(f)
  {
    NotSamplesConcat(a, b);
    NotSamplesConcat(a + b, c);
    NotSamplesConcat(a + b + c, d);
    NotSamplesConcat(a + b + c + d, e);
    NotSamplesConcat(a + b + c + d + e, f);
  }

  // ---------------------------------------------------------------------
  // Which of these lines stay one line.

  predicate CleanAccount(a: Account) { OneLineButNewline(a.provider) && OneLineButNewline(a.account) }

  predicate CleanEvent(e: Event) {
    && OneLineButNewline(e.alias) && CleanAccount(e.Id()) && OneLineButNewline(e.model)
    && (e.kind.Skipped? ==> OneLineButNewline(e.kind.reason))
  }

  predicate CleanLeg(l: Leg) { OneLineButNewline(l.alias) && CleanAccount(l.id) && OneLineButNewline(l.model) }

  lemma LabelNames()
    ensures OneLine("provider") && OneLine("account") && OneLine("alias") && OneLine("model")
    ensures OneLine("transition") && OneLine("reason") && OneLine("state")
  {
    PrintableIsOneLine("provider");
    PrintableIsOneLine("account");
    PrintableIsOneLine("alias");
    PrintableIsOneLine("model");
    PrintableIsOneLine("transition");
    PrintableIsOneLine("reason");
    PrintableIsOneLine("state");
  }

  lemma CleanBlock(ls: seq<Label>)
    requires forall i :: 0 <= i < |ls| ==> OneLine(ls[i].name) && OneLineButNewline(ls[i].value)
    ensures OneLine(Block(ls))
  {
    BlockIsOneLine(ls);
  }

  predicate CleanRows(rows: seq<Series>) { forall r :: r in rows ==> OneLine(r.labels) }

  lemma TableIsClean<K(!new)>(rows: seq<Series>, counts: map<K, nat>, text: K -> string)
    requires Table(rows, counts, text)
    requires forall k :: k in counts ==> OneLine(text(k))
    ensures CleanRows(rows)
  {}

  lemma {:induction false} TallyKeys<K(!new)>(keys: seq<K>)
    ensures forall k :: k in Tally(keys) <==> k in keys
  {
    if keys == [] {
    } else {
      TallyKeys(keys[..|keys|-1]);
      assert keys == keys[..|keys|-1] + [keys[|keys|-1]];
    }
  }

  lemma {:induction false} TransitionsClean(es: seq<Event>)
    requires forall e :: e in es ==> CleanEvent(e)
    ensures forall t :: t in Transitions(es) ==>
            CleanAccount(t.id) && (t.transition == "opened" || t.transition == "closed")
  {
    if es == [] {
    } else {
      assert es[|es|-1] in es && forall e :: e in es[..|es|-1] ==> e in es;
      TransitionsClean(es[..|es|-1]);
    }
  }

  lemma {:induction false} SkipsClean(es: seq<Event>)
    requires forall e :: e in es ==> CleanEvent(e)
    ensures forall s :: s in Skips(es) ==> CleanLeg(s.leg) && OneLineButNewline(s.reason)
  {
    if es == [] {
    } else {
      assert es[|es|-1] in es && forall e :: e in es[..|es|-1] ==> e in es;
      SkipsClean(es[..|es|-1]);
    }
  }

  lemma {:induction false} LegsClean(es: seq<Event>, kind: Kind)
    requires forall e :: e in es ==> CleanEvent(e)
    ensures forall l :: l in LegsOf(es, kind) ==> CleanLeg(l)
  {
    if es == [] {
    } else {
      assert es[|es|-1] in es && forall e :: e in es[..|es|-1] ==> e in es;
      LegsClean(es[..|es|-1], kind);
    }
  }

  lemma LegTextClean(l: Leg)
    requires CleanLeg(l)
    ensures OneLine(TextOf(ProbeLabels())(l))
  {
    LabelNames();
    CleanBlock(LegLabels(l));
  }

  lemma SkipTextClean(s: Skip)
    requires CleanLeg(s.leg) && OneLineButNewline(s.reason)
    ensures OneLine(TextOf(SkipLabels())(s))
  {
    LabelNames();
    CleanBlock(SkipLabels()(s));
  }

  lemma TransitionTextClean(t: Transition)
    requires CleanAccount(t.id) && (t.transition == "opened" || t.transition == "closed")
    ensures OneLine(TextOf(TransitionLabels())(t))
  {
    LabelNames();
    PrintableIsOneLine("opened");
    PrintableIsOneLine("closed");
    CleanBlock(TransitionLabels()(t));
  }

  lemma LegRowsClean(es: seq<Event>, kind: Kind, rows: seq<Series>)
    requires forall e :: e in es ==> CleanEvent(e)
    requires Table(rows, Tally(LegsOf(es, kind)), TextOf(ProbeLabels()))
    ensures CleanRows(rows)
  {
    LegsClean(es, kind);
    TallyKeys(LegsOf(es, kind));
    forall l | l in Tally(LegsOf(es, kind)) ensures OneLine(TextOf(ProbeLabels())(l)) { LegTextClean(l); }
    TableIsClean(rows, Tally(LegsOf(es, kind)), TextOf(ProbeLabels()));
  }

  lemma SkipRowsClean(es: seq<Event>, rows: seq<Series>)
    requires forall e :: e in es ==> CleanEvent(e)
    requires Table(rows, Tally(Skips(es)), TextOf(SkipLabels()))
    ensures CleanRows(rows)
  {
    SkipsClean(es);
    TallyKeys(Skips(es));
    forall s | s in Tally(Skips(es)) ensures OneLine(TextOf(SkipLabels())(s)) { SkipTextClean(s); }
    TableIsClean(rows, Tally(Skips(es)), TextOf(SkipLabels()));
  }

  lemma TransitionRowsClean(es: seq<Event>, rows: seq<Series>)
    requires forall e :: e in es ==> CleanEvent(e)
    requires Table(rows, Tally(Transitions(es)), TextOf(TransitionLabels()))
    ensures CleanRows(rows)
  {
    TransitionsClean(es);
    TallyKeys(Transitions(es));
    forall t | t in Tally(Transitions(es)) ensures OneLine(TextOf(TransitionLabels())(t)) { TransitionTextClean(t); }
    TableIsClean(rows, Tally(Transitions(es)), TextOf(TransitionLabels()));
  }

  lemma NamesAreOneLine()
    ensures OneLine(TRANSITIONS) && OneLine(SKIPS) && OneLine(PROBES)
    ensures OneLine(FAIL_OPENS) && OneLine(UNRECOGNIZED) && OneLine(STATE_GAUGE)
  {
    TransitionsIsOneLine();
    SkipsIsOneLine();
    ProbesIsOneLine();
    FailOpensIsOneLine();
    UnrecognizedIsOneLine();
    GaugeIsOneLine();
  }

  lemma TransitionsIsOneLine()
    ensures OneLine(TRANSITIONS)
  { CircuitName("_transitions_total"); }

  lemma SkipsIsOneLine()
    ensures OneLine(SKIPS)
  { CircuitName("_skips_total"); }

  lemma ProbesIsOneLine()
    ensures OneLine(PROBES)
  { CircuitName("_probes_total"); }

  lemma FailOpensIsOneLine()
    ensures OneLine(FAIL_OPENS)
  { CircuitName("_fail_open_total"); }

  lemma GaugeIsOneLine()
    ensures OneLine(STATE_GAUGE)
  { CircuitName("_state"); }

  lemma CircuitIsOneLine()
    ensures OneLine(CIRCUIT)
  {
    PrintableIsOneLine("smolllm_account");
    PrintableIsOneLine("_circuit");
    OneLineConcat("smolllm_account", "_circuit");
  }

  lemma UnrecognizedIsOneLine()
    ensures OneLine(UNRECOGNIZED)
  {
    PrintableIsOneLine("smolllm_unrecognized");
    PrintableIsOneLine("_structured_429_total");
    OneLineConcat("smolllm_unrecognized", "_structured_429_total");
  }

  lemma CircuitName(suffix: string)
    ensures Printable(suffix) ==> OneLine(CIRCUIT + suffix)
  {
    CircuitIsOneLine();
    if Printable(suffix) { PrintableIsOneLine(suffix); }
    OneLineConcat(CIRCUIT, suffix);
  }

  lemma NamedLine(name: string, labels: string, n: nat)
    ensures OneLine(SampleLine(name + "{", labels, Digits(n))) <==> OneLine(name) && OneLine(labels)
  {
    DigitsAreOneLine(n);
    OneLineConcat(name, "{");
    WrappedIsOneLine(name + "{", labels, Digits(n));
  }

  lemma {:induction false} FamilyLinesClean(name: string, rows: seq<Series>)
    requires OneLine(name) && CleanRows(rows)
    ensures AllOneLine(FamilyLines(name, rows))
  {
    if rows == [] {
    } else {
      assert rows[|rows|-1] in rows && forall r :: r in rows[..|rows|-1] ==> r in rows;
      FamilyLinesClean(name, rows[..|rows|-1]);
      NamedLine(name, rows[|rows|-1].labels, rows[|rows|-1].value);
    }
  }

  lemma HeaderClean(name: string, kind: string, help: HelpText)
    ensures AllOneLine(Header(name, kind, help)) <==> OneLine(name) && OneLine(kind) && OneLine(help(name))
  {
    PrintableIsOneLine("# HELP ");
    PrintableIsOneLine("# TYPE ");
    OneLineConcat(" ", help(name));
    OneLineConcat(name, " " + help(name));
    OneLineConcat("# HELP ", name + (" " + help(name)));
    OneLineConcat(" ", kind);
    OneLineConcat(name, " " + kind);
    OneLineConcat("# TYPE ", name + (" " + kind));
    TwoLines("# HELP " + (name + (" " + help(name))), "# TYPE " + (name + (" " + kind)));
  }

  lemma TwoLines(x: string, y: string)
    ensures AllOneLine([x, y]) <==> OneLine(x) && OneLine(y)
  {
    assert [x, y][0] == x && [x, y][1] == y;
  }

  lemma FamilyClean(name: string, rows: seq<Series>, help: HelpText)
    requires OneLine(name) && OneLine(help(name)) && CleanRows(rows)
    ensures AllOneLine(Family(name, rows, help))
  {
    PrintableIsOneLine("counter");
    HeaderClean(name, "counter", help);
    FamilyLinesClean(name, rows);
    AllOneLineConcat(Header(name, "counter", help), FamilyLines(name, rows));
  }

  lemma OneAccountClean(states: map<Account, string>, id: Account)
    requires id in states && CleanAccount(id)
    ensures AllOneLine(StatesOfOne(states, id))
  {
    NamesAreOneLine();
    LabelNames();
    PrintableIsOneLine("closed");
    PrintableIsOneLine("open");
    PrintableIsOneLine("half_open");
    forall i | 0 <= i < 3 ensures OneLine(StateLine(states, id, CIRCUIT_STATES[i])) {
      CleanBlock(StateLabels(id, CIRCUIT_STATES[i]));
      NamedLine(STATE_GAUGE, Block(StateLabels(id, CIRCUIT_STATES[i])), StateValue(states, id, CIRCUIT_STATES[i]));
    }
  }

  lemma {:induction false} StateLinesClean(states: map<Account, string>, ids: seq<Account>)
    requires forall id :: id in ids ==> id in states && CleanAccount(id)
    ensures AllOneLine(StateLines(states, ids))
  {
    if ids == [] {
    } else {
      var front, id := ids[..|ids|-1], ids[|ids|-1];
      StateLinesClean(states, front);
      OneAccountClean(states, id);
      AllOneLineConcat(StateLines(states, front), StatesOfOne(states, id));
    }
  }

  lemma GaugeClean(states: map<Account, string>, ids: seq<Account>, help: HelpText)
    requires forall id :: id in ids ==> id in states && CleanAccount(id)
    requires OneLine(help(STATE_GAUGE))
    ensures AllOneLine(Gauge(states, ids, help))
  {
    NamesAreOneLine();
    PrintableIsOneLine("gauge");
    HeaderClean(STATE_GAUGE, "gauge", help);
    StateLinesClean(states, ids);
    AllOneLineConcat(Header(STATE_GAUGE, "gauge", help), StateLines(states, ids));
  }

  lemma {:induction false} StatesClean(es: seq<Event>, circuits: seq<Circuit>)
    requires (forall e :: e in es ==> CleanEvent(e)) && forall c :: c in circuits ==> CleanAccount(c.id)
    ensures forall id :: id in StatesOf(SeenIn(es), circuits) ==> CleanAccount(id)
    decreases |circuits|
  {
    if circuits == [] {
    } else {
      assert circuits[|circuits|-1] in circuits && forall c :: c in circuits[..|circuits|-1] ==> c in circuits;
      StatesClean(es, circuits[..|circuits|-1]);
    }
  }

  lemma AllSix(a: seq<string>, b: seq<string>, c: seq<string>, d: seq<string>, e: seq<string>, f: seq<string>)
    ensures AllOneLine(a + b + c + d + e + f)
            <==> AllOneLine(a) && AllOneLine(b) && AllOneLine(c) && AllOneLine(d) && AllOneLine(e) && AllOneLine(f)
  {
    AllOneLineConcat(a, b);
    AllOneLineConcat(a + b, c);
    AllOneLineConcat(a + b + c, d);
    AllOneLineConcat(a + b + c + d, e);
    AllOneLineConcat(a + b + c + d + e, f);
  }

  /** With names free of line breaks other than newline, every account line is one line. */
  lemma TablesAreOneLine(t: Tables, es: seq<Event>, circuits: seq<Circuit>, help: HelpText)
    requires IsTables(t, es, circuits)
    requires (forall e :: e in es ==> CleanEvent(e)) && (forall c :: c in circuits ==> CleanAccount(c.id))
    requires forall name :: OneLine(help(name))
    ensures AllOneLine(TableLines(t, StatesOf(SeenIn(es), circuits), help))
  {
    var states := StatesOf(SeenIn(es), circuits);
    NamesAreOneLine();
    TransitionRowsClean(es, t.transitions);
    SkipRowsClean(es, t.skips);
    LegRowsClean(es, Probing, t.probes);
    LegRowsClean(es, FailOpen, t.failOpens);
    LegRowsClean(es, Unrecognized429, t.unrecognized429);
    FamilyClean(TRANSITIONS, t.transitions, help);
    FamilyClean(SKIPS, t.skips, help);
    FamilyClean(PROBES, t.probes, help);
    FamilyClean(FAIL_OPENS, t.failOpens, help);
    FamilyClean(UNRECOGNIZED, t.unrecognized429, help);
    StatesClean(es, circuits);
    GaugeClean(states, t.ids, help);
    AllSix(Family(TRANSITIONS, t.transitions, help), Family(SKIPS, t.skips, help), Family(PROBES, t.probes, help),
           Family(FAIL_OPENS, t.failOpens, help), Family(UNRECOGNIZED, t.unrecognized429, help),
           Gauge(states, t.ids, help));
  }
}
