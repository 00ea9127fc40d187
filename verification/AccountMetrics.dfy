/** Counters for the shared account breaker's decisions, and their sorted rendering. */
module AccountMetrics {
  import opened Counting
  import opened Ordering
  import opened Exposition
  import opened Decimal

  datatype Account = Account(provider: string, account: string)
  datatype Leg = Leg(alias: string, id: Account, model: string)
  datatype Transition = Transition(id: Account, transition: string)
  datatype Skip = Skip(leg: Leg, reason: string)

  datatype Kind = Opened | Closed | Skipped(reason: string) | Probing | FailOpen | Unrecognized429 | UnknownKind

  datatype Event = Event(alias: string, provider: string, account: string, model: string, kind: Kind) {
    function Id(): Account { Account(provider, account) }
    function OnLeg(): Leg { Leg(alias, Id(), model) }
  }

  function Tally<K>(keys: seq<K>): (m: map<K, nat>) {
    if keys == [] then map[] else Bump(Tally(keys[..|keys|-1]), keys[|keys|-1])
  }

  function Bump<K>(m: map<K, nat>, k: K): (r: map<K, nat>) { m[k := 1 + if k in m then m[k] else 0] }

  ghost function Held<K(!new)>(m: map<K, nat>): int { Sum(m.Keys, k => if k in m then m[k] else 0) }

  lemma {:induction false} TallyHolds<K(!new)>(keys: seq<K>)
    ensures Held(Tally(keys)) == |keys|
  {
    if keys == [] {
    } else {
      var m, k := Tally(keys[..|keys|-1]), keys[|keys|-1];
      TallyHolds(keys[..|keys|-1]);
      var r := Bump(m, k);
      var f, g := (j: K) => if j in m then m[j] else 0, (j: K) => if j in r then r[j] else 0;
      SumTakeOut(r.Keys, g, k);
      SumSame(r.Keys - {k}, g, f);
      if k in m {
        SumTakeOut(m.Keys, f, k);
        assert r.Keys - {k} == m.Keys - {k};
      } else {
        assert r.Keys - {k} == m.Keys;
      }
    }
  }

  // Which family each event belongs to.

  function Moves(e: Event): seq<Transition> {
    match e.kind
    case Opened => [Transition(e.Id(), "opened")]
    case Closed => [Transition(e.Id(), "closed")]
    case _ => []
  }

  function Transitions(es: seq<Event>): seq<Transition> {
    if es == [] then [] else Transitions(es[..|es|-1]) + Moves(es[|es|-1])
  }

  function Skips(es: seq<Event>): seq<Skip> {
    if es == [] then []
    else if es[|es|-1].kind.Skipped? then Skips(es[..|es|-1]) + [Skip(es[|es|-1].OnLeg(), es[|es|-1].kind.reason)]
    else Skips(es[..|es|-1])
  }

  function LegsOf(es: seq<Event>, kind: Kind): seq<Leg> {
    if es == [] then []
    else if es[|es|-1].kind == kind then LegsOf(es[..|es|-1], kind) + [es[|es|-1].OnLeg()]
    else LegsOf(es[..|es|-1], kind)
  }

  function Known(): Event -> bool { (e: Event) => !e.kind.UnknownKind? }

  /** The five counter families as one value. */
  datatype Families = Families(
    transitions: map<Transition, nat>, skips: map<Skip, nat>,
    probes: map<Leg, nat>, failOpens: map<Leg, nat>, unrecognized429: map<Leg, nat>)

  function FamiliesOf(es: seq<Event>): Families {
    Families(Tally(Transitions(es)), Tally(Skips(es)),
             Tally(LegsOf(es, Probing)), Tally(LegsOf(es, FailOpen)), Tally(LegsOf(es, Unrecognized429)))
  }

  /** One more event: only its own family moves. */
  function Counted(f: Families, e: Event): Families {
    match e.kind
    case Opened => f.(transitions := Bump(f.transitions, Transition(e.Id(), "opened")))
    case Closed => f.(transitions := Bump(f.transitions, Transition(e.Id(), "closed")))
    case Skipped(reason) => f.(skips := Bump(f.skips, Skip(e.OnLeg(), reason)))
    case Probing => f.(probes := Bump(f.probes, e.OnLeg()))
    case FailOpen => f.(failOpens := Bump(f.failOpens, e.OnLeg()))
    case Unrecognized429 => f.(unrecognized429 := Bump(f.unrecognized429, e.OnLeg()))
    case UnknownKind => f
  }

  function SeenIn(es: seq<Event>): set<Account> { set e | e in es :: e.Id() }

  class AccountCounters {
    var transitions: map<Transition, nat>
    var skips: map<Skip, nat>
    var probes: map<Leg, nat>
    var failOpens: map<Leg, nat>
    var unrecognized429: map<Leg, nat>
    var seen: set<Account>
    ghost var events: seq<Event>

    function View(): Families reads this { Families(transitions, skips, probes, failOpens, unrecognized429) }

    ghost predicate Valid() reads this { View() == FamiliesOf(events) && seen == SeenIn(events) }

    constructor ()
      ensures Valid() && events == []
    {
      transitions, skips, probes, failOpens, unrecognized429, seen, events := map[], map[], map[], map[], map[], {}, [];
    }

    method Record(e: Event)
      requires Valid()
      modifies this
      ensures Valid() && events == old(events) + [e]
    {
      FamiliesAppend(events, e);
      Switch(e);
      events := events + [e];
    }

    /** The set update and the switch over the event's kind. */
    method Switch(e: Event)
      modifies this
      ensures View() == Counted(old(View()), e) && seen == old(seen) + {e.Id()} && events == old(events)
    {
      seen := seen + {e.Id()};
      match e.kind {
        case Opened => transitions := Bump(transitions, Transition(e.Id(), "opened"));
        case Closed => transitions := Bump(transitions, Transition(e.Id(), "closed"));
        case Skipped(reason) => skips := Bump(skips, Skip(e.OnLeg(), reason));
        case Probing => probes := Bump(probes, e.OnLeg());
        case FailOpen => failOpens := Bump(failOpens, e.OnLeg());
        case Unrecognized429 => unrecognized429 := Bump(unrecognized429, e.OnLeg());
        case UnknownKind =>
      }
    }

    /** `write`: the families in the order the server prints them, then the state gauge. */
    method Write(circuits: seq<Circuit>, help: HelpText) returns (b: string, t: Tables)
      requires Valid()
      ensures IsTables(t, events, circuits)
      ensures b == Join(TableLines(t, StatesOf(SeenIn(events), circuits), help))
    {
      var states := CollectStates(seen, circuits);
      var ids := SortedIds(states.Keys);
      t := SortedTables(View(), ids);
      b := WriteTables(t, states, help);
    }
  }

  lemma TallyAppend<K>(keys: seq<K>, k: K)
    ensures Tally(keys + [k]) == Bump(Tally(keys), k)
  {
    assert (keys + [k])[..|keys|] == keys;
  }

  lemma MovesAppend(es: seq<Event>, e: Event)
    ensures Transitions(es + [e]) == Transitions(es) + Moves(e)
  {
    assert (es + [e])[..|es|] == es;
  }

  lemma TransitionsAppend(es: seq<Event>, e: Event)
    ensures Tally(Transitions(es + [e])) == match e.kind
                                            case Opened => Bump(Tally(Transitions(es)), Transition(e.Id(), "opened"))
                                            case Closed => Bump(Tally(Transitions(es)), Transition(e.Id(), "closed"))
                                            case _ => Tally(Transitions(es))
  {
    MovesAppend(es, e);
    match e.kind
    case Opened => TallyAppend(Transitions(es), Transition(e.Id(), "opened"));
    case Closed => TallyAppend(Transitions(es), Transition(e.Id(), "closed"));
    case _ => assert Transitions(es) + Moves(e) == Transitions(es);
  }

  lemma SkipsAppend(es: seq<Event>, e: Event)
    ensures Tally(Skips(es + [e])) ==
            if e.kind.Skipped? then Bump(Tally(Skips(es)), Skip(e.OnLeg(), e.kind.reason)) else Tally(Skips(es))
  {
    assert (es + [e])[..|es|] == es;
    if e.kind.Skipped? { TallyAppend(Skips(es), Skip(e.OnLeg(), e.kind.reason)); }
  }

  lemma LegsAppend(es: seq<Event>, e: Event, kind: Kind)
    ensures Tally(LegsOf(es + [e], kind))
            == if e.kind == kind then Bump(Tally(LegsOf(es, kind)), e.OnLeg()) else Tally(LegsOf(es, kind))
  {
    assert (es + [e])[..|es|] == es;
    TallyAppend(LegsOf(es, kind), e.OnLeg());
  }

  lemma FamiliesAppend(es: seq<Event>, e: Event)
    ensures FamiliesOf(es + [e]) == Counted(FamiliesOf(es), e)
    ensures SeenIn(es + [e]) == SeenIn(es) + {e.Id()}
  {
    TransitionsAppend(es, e);
    SkipsAppend(es, e);
    LegsAppend(es, e, Probing);
    LegsAppend(es, e, FailOpen);
    LegsAppend(es, e, Unrecognized429);
    SeenAppend(es, e);
  }

  lemma SeenAppend(es: seq<Event>, e: Event)
    ensures SeenIn(es + [e]) == SeenIn(es) + {e.Id()}
  {}

  /** Every event of a known kind is in exactly one family: the families add up to their number. */
  lemma {:induction false} FamiliesConserveEvents(es: seq<Event>)
    ensures Held(Tally(Transitions(es))) + Held(Tally(Skips(es))) + Held(Tally(LegsOf(es, Probing)))
            + Held(Tally(LegsOf(es, FailOpen))) + Held(Tally(LegsOf(es, Unrecognized429))) == CountIf(es, Known())
  {
    TallyHolds(Transitions(es));
    TallyHolds(Skips(es));
    TallyHolds(LegsOf(es, Probing));
    TallyHolds(LegsOf(es, FailOpen));
    TallyHolds(LegsOf(es, Unrecognized429));
    SizesAddUp(es);
  }

  lemma {:induction false} SizesAddUp(es: seq<Event>)
    ensures |Transitions(es)| + |Skips(es)| + |LegsOf(es, Probing)| + |LegsOf(es, FailOpen)|
            + |LegsOf(es, Unrecognized429)|
            == CountIf(es, Known())
  {
    if es == [] {
    } else {
      SizesAddUp(es[..|es|-1]);
    }
  }

  // ---------------------------------------------------------------------
  // Rendering

  function AccountLabels(a: Account): seq<Label> { [Label("provider", a.provider), Label("account", a.account)] }
  function LegLabels(l: Leg): seq<Label> { [Label("alias", l.alias)] + AccountLabels(l.id) + [Label("model", l.model)] }

  function TransitionLabels(): Transition -> seq<Label> {
    (t: Transition) => AccountLabels(t.id) + [Label("transition", t.transition)]
  }
  function SkipLabels(): Skip -> seq<Label> { (s: Skip) => LegLabels(s.leg) + [Label("reason", s.reason)] }
  function ProbeLabels(): Leg -> seq<Label> { (l: Leg) => LegLabels(l) }

  function TextOf<K>(labels: K -> seq<Label>): K -> string { k => Block(labels(k)) }

  ghost predicate Injective<K(!new)>(f: K -> string) { forall a, b :: f(a) == f(b) ==> a == b }

  lemma BlockTextIsInjective<K(!new)>(labels: K -> seq<Label>)
    requires forall k :: GoodNames(labels(k))
    requires forall a, b :: labels(a) == labels(b) ==> a == b
    ensures Injective(TextOf(labels))
  {
    forall a, b | TextOf(labels)(a) == TextOf(labels)(b) ensures a == b { BlocksInjective(labels(a), labels(b)); }
  }

  lemma SameTransition(a: Transition, b: Transition)
    requires TransitionLabels()(a) == TransitionLabels()(b)
    ensures a == b
  {
    var x, y := TransitionLabels()(a), TransitionLabels()(b);
    assert x[0] == y[0] && x[1] == y[1] && x[2] == y[2];
  }

  lemma SameSkip(a: Skip, b: Skip)
    requires SkipLabels()(a) == SkipLabels()(b)
    ensures a == b
  {
    var x, y := SkipLabels()(a), SkipLabels()(b);
    assert x[4] == y[4] && LegLabels(a.leg) == x[..4] && LegLabels(b.leg) == y[..4];
    SameLeg(a.leg, b.leg);
  }

  /** The label block determines the series, for every family. */
  lemma RenderingIsInjective()
    ensures Injective(TextOf(TransitionLabels())) && Injective(TextOf(SkipLabels())) && Injective(TextOf(ProbeLabels()))
  {
    TransitionText();
    SkipText();
    LegText();
  }

  lemma TransitionText()
    ensures Injective(TextOf(TransitionLabels()))
  {
    forall a, b | TransitionLabels()(a) == TransitionLabels()(b) ensures a == b { SameTransition(a, b); }
    BlockTextIsInjective(TransitionLabels());
  }

  lemma SkipText()
    ensures Injective(TextOf(SkipLabels()))
  {
    forall a, b | SkipLabels()(a) == SkipLabels()(b) ensures a == b { SameSkip(a, b); }
    BlockTextIsInjective(SkipLabels());
  }

  lemma LegText()
    ensures Injective(TextOf(ProbeLabels()))
  {
    forall a, b | ProbeLabels()(a) == ProbeLabels()(b) ensures a == b { SameLeg(a, b); }
    BlockTextIsInjective(ProbeLabels());
  }

  lemma SameLeg(a: Leg, b: Leg)
    requires LegLabels(a) == LegLabels(b)
    ensures a == b
  {
    var x, y := LegLabels(a), LegLabels(b);
    assert x[0] == y[0] && x[1] == y[1] && x[2] == y[2] && x[3] == y[3];
  }

  datatype Series = Series(labels: string, value: nat)

  function SeriesRank(): Series -> Rank { (s: Series) => Rank(0, [s.labels]) }

  ghost predicate Lists<K(!new)>(rows: seq<Series>, counts: map<K, nat>, text: K -> string) {
    && |rows| == |counts|
    && (forall k :: k in counts ==> Series(text(k), counts[k]) in rows)
    && (forall r :: r in rows ==> exists k :: k in counts && r == Series(text(k), counts[k]))
  }

  method SortedSeries<K(!new)>(counts: map<K, nat>, text: K -> string) returns (rows: seq<Series>)
    ensures Lists(rows, counts, text) && Sorted(rows, SeriesRank())
  {
    var out: seq<Series> := [];
    var todo := counts.Keys;
    while todo != {}
      invariant todo <= counts.Keys && |out| + |todo| == |counts.Keys|
      invariant forall k :: k in counts && k !in todo ==> Series(text(k), counts[k]) in out
      invariant forall r :: r in out ==> exists k :: k in counts && r == Series(text(k), counts[k])
      decreases todo
    {
      var k :| k in todo;
      todo := todo - {k};
      out := out + [Series(text(k), counts[k])];
    }
    rows := Sort(out, SeriesRank());
    SortSorts(out, SeriesRank());
    SameMembers(out, rows);
  }

  lemma SameMembers(a: seq<Series>, b: seq<Series>)
    requires multiset(a) == multiset(b)
    ensures |a| == |b| && forall r :: r in a <==> r in b
  {
    assert forall r :: r in b <==> r in multiset(b);
    assert forall r :: r in a <==> r in multiset(a);
    assert |multiset(b)| == |b| && |multiset(a)| == |a|;
  }

  lemma {:induction false} Pigeonhole(a: seq<Series>, s: set<Series>)
    requires |a| == |s| && forall x :: x in s <==> x in a
    ensures multiset(a) == multiset(s)
    decreases |a|
  {
    if a != [] {
      var last, front := a[|a|-1], a[..|a|-1];
      assert a == front + [last];
      if last in front {
        FewerElements(front, s);
      } else {
        Pigeonhole(front, s - {last});
        assert multiset(s) == multiset(s - {last}) + multiset{last};
      }
    }
  }

  lemma {:induction false} FewerElements(a: seq<Series>, s: set<Series>)
    requires forall x :: x in s ==> x in a
    ensures |s| <= |a|
    decreases |a|
  {
    if a == [] {
      assert s == {};
    } else {
      assert a == a[..|a|-1] + [a[|a|-1]];
      FewerElements(a[..|a|-1], s - {a[|a|-1]});
      if a[|a|-1] in s { assert |s - {a[|a|-1]}| == |s| - 1; } else { assert s - {a[|a|-1]} == s; }
    }
  }

  lemma {:induction false} ImageSize<K(!new)>(ks: set<K>, f: K -> Series)
    requires forall a, b :: a in ks && b in ks && f(a) == f(b) ==> a == b
    ensures |set k | k in ks :: f(k)| == |ks|
    decreases |ks|
  {
    if ks == {} {
    } else {
      var k :| k in ks;
      ImageSize(ks - {k}, f);
      assert (set j | j in ks :: f(j)) == (set j | j in ks - {k} :: f(j)) + {f(k)};
    }
  }

  /** A rendered family is a function of the counters alone: any two sorted listings agree. */
  lemma FamilyDetermined<K(!new)>(counts: map<K, nat>, text: K -> string, a: seq<Series>, b: seq<Series>)
    requires Injective(text)
    requires Lists(a, counts, text) && Sorted(a, SeriesRank())
    requires Lists(b, counts, text) && Sorted(b, SeriesRank())
    ensures a == b
  {
    var f := (k: K) => Series(text(k), if k in counts then counts[k] else 0);
    var s := set k | k in counts.Keys :: f(k);
    ImageSize(counts.Keys, f);
    ListedOnce(counts, text, f, s, a);
    ListedOnce(counts, text, f, s, b);
    forall x, y | x in a && y in a && SeriesRank()(x) == SeriesRank()(y) ensures x == y {
      assert SeriesRank()(x).names[0] == SeriesRank()(y).names[0];
      var i :| i in counts && x == Series(text(i), counts[i]);
      var j :| j in counts && y == Series(text(j), counts[j]);
      assert text(i) == text(j);
    }
    SortedUnique(a, b, SeriesRank());
  }

  lemma ListedOnce<K(!new)>(counts: map<K, nat>, text: K -> string, f: K -> Series, s: set<Series>, rows: seq<Series>)
    requires Lists(rows, counts, text) && |s| == |counts|
    requires forall k :: k in counts ==> f(k) == Series(text(k), counts[k])
    requires s == set k | k in counts.Keys :: f(k)
    ensures multiset(rows) == multiset(s)
  {
    forall x ensures x in s <==> x in rows {
      if x in rows { var k :| k in counts && x == Series(text(k), counts[k]); assert f(k) in s; }
    }
    Pigeonhole(rows, s);
  }

  // ---------------------------------------------------------------------
  // The state gauge

  /** What the breaker reports of one account. */
  datatype Circuit = Circuit(id: Account, state: string)

  const CIRCUIT_STATES: seq<string> := ["closed", "open", "half_open"]

  /** Accounts ever reported on are closed unless the breaker says otherwise; the last report counts. */
  function StatesOf(seen: set<Account>, circuits: seq<Circuit>): map<Account, string> {
    if circuits == [] then map id | id in seen :: "closed"
    else StatesOf(seen, circuits[..|circuits|-1])[circuits[|circuits|-1].id := circuits[|circuits|-1].state]
  }

  method CollectStates(seen: set<Account>, circuits: seq<Circuit>) returns (states: map<Account, string>)
    ensures states == StatesOf(seen, circuits)
  {
    states := map[];
    var todo := seen;
    while todo != {}
      invariant todo <= seen
      invariant states == map id | id in seen && id !in todo :: "closed"
      decreases todo
    {
      var id :| id in todo;
      todo := todo - {id};
      states := states[id := "closed"];
    }
    for i := 0 to |circuits|
      invariant states == StatesOf(seen, circuits[..i])
    {
      assert circuits[..i + 1][..i] == circuits[..i];
      states := states[circuits[i].id := circuits[i].state];
    }
    assert circuits[..|circuits|] == circuits;
  }

  function IdRank(): Account -> Rank { (a: Account) => Rank(0, [a.provider, a.account]) }

  method SortedIds(ids: set<Account>) returns (out: seq<Account>)
    ensures multiset(out) == multiset(ids) && Sorted(out, IdRank()) && forall id :: id in out ==> id in ids
  {
    var items: seq<Account> := [];
    var todo := ids;
    while todo != {}
      invariant multiset(items) + multiset(todo) == multiset(ids)
      decreases todo
    {
      var id :| id in todo;
      todo := todo - {id};
      items := items + [id];
    }
    out := Sort(items, IdRank());
    SortSorts(items, IdRank());
    assert multiset(out) == multiset(ids);
    forall id | id in out ensures id in ids { assert id in multiset(out) && id in multiset(ids); }
  }

  function StateLabels(id: Account, state: string): seq<Label> { AccountLabels(id) + [Label("state", state)] }

  function StateValue(states: map<Account, string>, id: Account, state: string): nat
    requires id in states
  {
    if states[id] == state then 1 else 0
  }

  /** An account in a known state shows exactly one 1 among its three lines; in any other, none. */
  lemma OneHot(states: map<Account, string>, id: Account)
    requires id in states
    ensures StateValue(states, id, CIRCUIT_STATES[0]) + StateValue(states, id, CIRCUIT_STATES[1])
            + StateValue(states, id, CIRCUIT_STATES[2])
            == if states[id] in CIRCUIT_STATES then 1 else 0
  {
    assert CIRCUIT_STATES[0] != CIRCUIT_STATES[1] && CIRCUIT_STATES[0] != CIRCUIT_STATES[2]
        && CIRCUIT_STATES[1] != CIRCUIT_STATES[2] by {
      assert |CIRCUIT_STATES[0]| == 6 && |CIRCUIT_STATES[1]| == 4 && |CIRCUIT_STATES[2]| == 9;
    }
  }

  function StateLine(states: map<Account, string>, id: Account, state: string): string
    requires id in states
  {
    SampleLine(STATE_GAUGE + "{", Block(StateLabels(id, state)), Digits(StateValue(states, id, state)))
  }

  function StatesOfOne(states: map<Account, string>, id: Account): seq<string>
    requires id in states
  {
    [StateLine(states, id, CIRCUIT_STATES[0]), StateLine(states, id, CIRCUIT_STATES[1]),
     StateLine(states, id, CIRCUIT_STATES[2])]
  }

  function StateLines(states: map<Account, string>, ids: seq<Account>): seq<string>
    requires forall id :: id in ids ==> id in states
  {
    if ids == [] then [] else StateLines(states, ids[..|ids|-1]) + StatesOfOne(states, ids[|ids|-1])
  }

  // ---------------------------------------------------------------------
  // On the page

  /** The help text of each family; any text will do as long as it is one line. */
  type HelpText = string -> string

  const CIRCUIT := "smolllm_account" + "_circuit"
  const TRANSITIONS := CIRCUIT + "_transitions_total"
  const SKIPS := CIRCUIT + "_skips_total"
  const PROBES := CIRCUIT + "_probes_total"
  const FAIL_OPENS := CIRCUIT + "_fail_open_total"
  const UNRECOGNIZED := "smolllm_unrecognized" + "_structured_429_total"
  const STATE_GAUGE := CIRCUIT + "_state"

  function FamilyLine(name: string, s: Series): string { SampleLine(name + "{", s.labels, Digits(s.value)) }

  function FamilyLines(name: string, rows: seq<Series>): seq<string> {
    if rows == [] then [] else FamilyLines(name, rows[..|rows|-1]) + [FamilyLine(name, rows[|rows|-1])]
  }

  function Header(name: string, kind: string, help: HelpText): seq<string> {
    ["# HELP " + (name + (" " + help(name))), "# TYPE " + (name + (" " + kind))]
  }

  /** `writeFamily`: nothing at all for a family without series. */
  function Family(name: string, rows: seq<Series>, help: HelpText): seq<string> {
    if rows == [] then [] else Header(name, "counter", help) + FamilyLines(name, rows)
  }

  function Gauge(states: map<Account, string>, ids: seq<Account>, help: HelpText): seq<string>
    requires forall id :: id in ids ==> id in states
  {
    if ids == [] then [] else Header(STATE_GAUGE, "gauge", help) + StateLines(states, ids)
  }

  /** The sorted rows of the five families, and the sorted accounts of the gauge. */
  datatype Tables = Tables(
    transitions: seq<Series>, skips: seq<Series>, probes: seq<Series>, failOpens: seq<Series>,
    unrecognized429: seq<Series>,
    ids: seq<Account>)

  ghost predicate Table<K(!new)>(rows: seq<Series>, counts: map<K, nat>, text: K -> string) {
    Lists(rows, counts, text) && Sorted(rows, SeriesRank())
  }

  ghost predicate ShowFamilies(t: Tables, f: Families) {
    && Table(t.transitions, f.transitions, TextOf(TransitionLabels()))
    && Table(t.skips, f.skips, TextOf(SkipLabels()))
    && Table(t.probes, f.probes, TextOf(ProbeLabels()))
    && Table(t.failOpens, f.failOpens, TextOf(ProbeLabels()))
    && Table(t.unrecognized429, f.unrecognized429, TextOf(ProbeLabels()))
  }

  method SortedTables(f: Families, ids: seq<Account>) returns (t: Tables)
    ensures ShowFamilies(t, f) && t.ids == ids
  {
    var ts := SortedSeries(f.transitions, TextOf(TransitionLabels()));
    var ss := SortedSeries(f.skips, TextOf(SkipLabels()));
    var ps := SortedSeries(f.probes, TextOf(ProbeLabels()));
    var fs := SortedSeries(f.failOpens, TextOf(ProbeLabels()));
    var us := SortedSeries(f.unrecognized429, TextOf(ProbeLabels()));
    t := Tables(ts, ss, ps, fs, us, ids);
  }

  ghost predicate IsTables(t: Tables, es: seq<Event>, circuits: seq<Circuit>) {
    && ShowFamilies(t, FamiliesOf(es))
    && multiset(t.ids) == multiset(StatesOf(SeenIn(es), circuits).Keys) && Sorted(t.ids, IdRank())
    && forall id :: id in t.ids ==> id in StatesOf(SeenIn(es), circuits)
  }

  function TableLines(t: Tables, states: map<Account, string>, help: HelpText): seq<string>
    requires forall id :: id in t.ids ==> id in states
  {
    Family(TRANSITIONS, t.transitions, help) + Family(SKIPS, t.skips, help) + Family(PROBES, t.probes, help)
    + Family(FAIL_OPENS, t.failOpens, help) + Family(UNRECOGNIZED, t.unrecognized429, help) + Gauge(states, t.ids, help)
  }

  method WriteFamily(name: string, rows: seq<Series>, help: HelpText) returns (b: string)
    ensures b == Join(Family(name, rows, help))
  {
    if |rows| == 0 { return ""; }
    b := WriteHeader(name, "counter", help);
    var more := "";
    for i := 0 to |rows|
      invariant more == Join(FamilyLines(name, rows[..i]))
    {
      var line := FamilyLine(name, rows[i]);
      assert rows[..i + 1][..i] == rows[..i];
      JoinAppend(FamilyLines(name, rows[..i]), line);
      more := more + (line + "\n");
    }
    assert rows[..|rows|] == rows;
    JoinConcat(Header(name, "counter", help), FamilyLines(name, rows));
    b := b + more;
  }

  method WriteHeader(name: string, kind: string, help: HelpText) returns (b: string)
    ensures b == Join(Header(name, kind, help))
  {
    var h := Header(name, kind, help);
    JoinAppend([], h[0]);
    JoinAppend([] + [h[0]], h[1]);
    assert h == [] + [h[0]] + [h[1]];
    b := (h[0] + "\n") + (h[1] + "\n");
  }

  method WriteGauge(states: map<Account, string>, ids: seq<Account>, help: HelpText) returns (b: string)
    requires forall id :: id in ids ==> id in states
    ensures b == Join(Gauge(states, ids, help))
  {
    if |ids| == 0 { return ""; }
    b := WriteHeader(STATE_GAUGE, "gauge", help);
    var more := "";
    for i := 0 to |ids|
      invariant more == Join(StateLines(states, ids[..i]))
    {
      assert ids[i] in ids && ids[..i + 1][..i] == ids[..i];
      var part := WriteStates(states, ids[i]);
      JoinConcat(StateLines(states, ids[..i]), StatesOfOne(states, ids[i]));
      more := more + part;
    }
    assert ids[..|ids|] == ids;
    JoinConcat(Header(STATE_GAUGE, "gauge", help), StateLines(states, ids));
    b := b + more;
  }

  method WriteStates(states: map<Account, string>, id: Account) returns (b: string)
    requires id in states
    ensures b == Join(StatesOfOne(states, id))
  {
    var x, y, z := StateLine(states, id, CIRCUIT_STATES[0]), StateLine(states, id, CIRCUIT_STATES[1]),
        StateLine(states, id, CIRCUIT_STATES[2]);
    JoinThree([], x, y, z);
    assert [] + [x, y, z] == StatesOfOne(states, id);
    b := "" + (x + "\n") + (y + "\n") + (z + "\n");
  }

  method WriteTables(t: Tables, states: map<Account, string>, help: HelpText) returns (b: string)
    requires forall id :: id in t.ids ==> id in states
    ensures b == Join(TableLines(t, states, help))
  {
    b := WriteFamily(TRANSITIONS, t.transitions, help);
    ghost var done := Family(TRANSITIONS, t.transitions, help);
    var more := WriteFamily(SKIPS, t.skips, help);
    JoinConcat(done, Family(SKIPS, t.skips, help));
    b, done := b + more, done + Family(SKIPS, t.skips, help);
    more := WriteFamily(PROBES, t.probes, help);
    JoinConcat(done, Family(PROBES, t.probes, help));
    b, done := b + more, done + Family(PROBES, t.probes, help);
    more := WriteFamily(FAIL_OPENS, t.failOpens, help);
    JoinConcat(done, Family(FAIL_OPENS, t.failOpens, help));
    b, done := b + more, done + Family(FAIL_OPENS, t.failOpens, help);
    more := WriteFamily(UNRECOGNIZED, t.unrecognized429, help);
    JoinConcat(done, Family(UNRECOGNIZED, t.unrecognized429, help));
    b, done := b + more, done + Family(UNRECOGNIZED, t.unrecognized429, help);
    more := WriteGauge(states, t.ids, help);
    JoinConcat(done, Gauge(states, t.ids, help));
    b := b + more;
  }

  /** The printed account page is a function of the recorded events and the breaker's reports. */
  lemma TablesDetermined(es: seq<Event>, circuits: seq<Circuit>, a: Tables, b: Tables)
    requires IsTables(a, es, circuits) && IsTables(b, es, circuits)
    ensures a == b
  {
    var f := FamiliesOf(es);
    TransitionText();
    SkipText();
    LegText();
    FamilyDetermined(f.transitions, TextOf(TransitionLabels()), a.transitions, b.transitions);
    FamilyDetermined(f.skips, TextOf(SkipLabels()), a.skips, b.skips);
    FamilyDetermined(f.probes, TextOf(ProbeLabels()), a.probes, b.probes);
    FamilyDetermined(f.failOpens, TextOf(ProbeLabels()), a.failOpens, b.failOpens);
    FamilyDetermined(f.unrecognized429, TextOf(ProbeLabels()), a.unrecognized429, b.unrecognized429);
    IdsDetermined(a.ids, b.ids);
  }

  lemma IdsDetermined(a: seq<Account>, b: seq<Account>)
    requires multiset(a) == multiset(b) && Sorted(a, IdRank()) && Sorted(b, IdRank())
    ensures a == b
  {
    forall x, y | x in a && y in a && IdRank()(x) == IdRank()(y) ensures x == y {
      assert IdRank()(x).names[0] == IdRank()(y).names[0] && IdRank()(x).names[1] == IdRank()(y).names[1];
    }
    SortedUnique(a, b, IdRank());
  }
}
