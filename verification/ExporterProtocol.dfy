/** The exporter as a step system: an upstream that counts and restarts, the poll thread
    with its lock, memory, temporary and state file, crashes at any point, and scrapers that
    read the payload only while the lock is free. */
module ExporterProtocol {
  import opened Decimal
  import opened Counter
  import opened Exporter

  type Payload = map<string, real>

  /** The server's counters: totals of earlier incarnations, and the current ones. */
  datatype Upstream = Upstream(epoch: nat, past: map<string, real>, cur: map<string, real>) {
    /** Everything ever counted for a series. */
    function Truth(k: string): real { Get(past, k) + Get(cur, k) }
  }

  /** The exporter's memory, with the scrapes that led to it. */
  datatype Image = Image(mem: Memory, seen: map<string, seq<Scrape>>) {
    function Seen(k: string): seq<Scrape> { if k in seen then seen[k] else [] }
    function Served(k: string): real { CellAt(mem, k).Served() }
  }

  const EMPTY_IMAGE := Image(BLANK, map[])

  function Raw(body: map<string, Scrape>): map<string, real> { map k | k in body :: body[k].raw }

  function Take(img: Image, body: map<string, Scrape>): Image {
    Image(ObserveAll(img.mem, Raw(body)),
          map k | k in img.seen.Keys + body.Keys :: img.Seen(k) + if k in body then [body[k]] else [])
  }

  /** What is served for the series of a body once it has been taken in. */
  function Render(img: Image, body: map<string, Scrape>): Payload { map k | k in body :: img.Served(k) }

  /** A file: missing, cut short or otherwise unreadable, or holding an image that may not have reached the disk. */
  datatype Content = Missing | Torn | Written(img: Image, synced: bool)

  /** Where the poll thread is. From `Transformed` to `Replaced` it holds the lock. */
  datatype Phase =
    | Down
    | Idle
    | Fetched(body: map<string, Scrape>)
    | Failing
    | Transformed(out: Payload)
    | Published
    | Opened
    | Flushed
    | Synced
    | Replaced

  datatype State = State(up: Upstream, phase: Phase, img: Image, payload: Payload, file: Content, tmp: Content,
                         log: seq<Payload>)

  /** Whether a state file is configured, and whether writing it can fail. */
  datatype Config = Config(persist: bool, writesFail: bool)

  const INIT := State(Upstream(0, map[], map[]), Down, EMPTY_IMAGE, map[], Missing, Missing, [])

  datatype Action =
    | Count(k: string, amount: real)                // upstream counts
    | UpstreamRestart
    | Load                                          // exporter starts
    | Fetch(keys: set<string>)
    | FetchFails
    | TakeIn                                        // lock, transform
    | TakeInFails(keys: set<string>)                // transform raises after some lines
    | ReportFailure
    | Publish
    | OpenTmp
    | WriteTmp
    | SyncTmp
    | Rename
    | SkipSave                                      // no state file configured
    | SaveFails                                     // an OSError anywhere in the save
    | Release
    | Crash(keepTmp: bool, keepFile: bool)          // unsynced bytes may or may not survive
    | Serve

  function Restarted(up: Upstream): Upstream {
    Upstream(up.epoch + 1, map k | k in up.past.Keys + up.cur.Keys :: up.Truth(k), map[])
  }

  function ReadBody(up: Upstream, keys: set<string>): map<string, Scrape> {
    map k | k in keys && k in up.cur :: Scrape(up.epoch, Get(up.past, k), up.cur[k])
  }

  function Part(body: map<string, Scrape>, keys: set<string>): map<string, Scrape> {
    map k | k in body && k in keys :: body[k]
  }

  function AfterCrash(c: Content, kept: bool): Content { if c.Written? && !c.synced && !kept then Torn else c }

  /** `load_state`: missing or unreadable state is an empty baseline; negative entries are dropped. */
  function Loaded(cfg: Config, file: Content): Image {
    if cfg.persist && file.Written?
    then Image(Memory(NonNegatives(file.img.mem.baseline), NonNegatives(file.img.mem.lastRaw)), file.img.seen)
    else EMPTY_IMAGE
  }

  function NonNegatives(m: map<string, real>): map<string, real> { map k | k in m && m[k] >= 0.0 :: m[k] }

  predicate LockFree(p: Phase) { p.Idle? || p.Fetched? || p.Failing? }

  /** One step, or `None` when it is not possible here. */
  function Do(cfg: Config, s: State, step: Action): (r: Option<State>) {
    match step
    case Count(k, amount) =>
      if amount >= 0.0 then Some(s.(up := s.up.(cur := s.up.cur[k := Get(s.up.cur, k) + amount]))) else None
    case UpstreamRestart => Some(s.(up := Restarted(s.up)))
    case Load => if s.phase.Down? then Some(s.(phase := Idle, img := Loaded(cfg, s.file), payload := map[])) else None
    case Fetch(keys) => if s.phase.Idle? then Some(s.(phase := Fetched(ReadBody(s.up, keys)))) else None
    case FetchFails => if s.phase.Idle? then Some(s.(payload := map[])) else None
    case TakeIn =>
      if s.phase.Fetched?
      then var img := Take(s.img, s.phase.body); Some(s.(phase := Transformed(Render(img, s.phase.body)), img := img))
      else None
    case TakeInFails(keys) =>
      if s.phase.Fetched? then Some(s.(phase := Failing, img := Take(s.img, Part(s.phase.body, keys)))) else None
    case ReportFailure => if s.phase.Failing? then Some(s.(phase := Idle, payload := map[])) else None
    case Publish => if s.phase.Transformed? then Some(s.(phase := Published, payload := s.phase.out)) else None
    case OpenTmp => if s.phase.Published? && cfg.persist then Some(s.(phase := Opened, tmp := Torn)) else None
    case WriteTmp => if s.phase.Opened? then Some(s.(phase := Flushed, tmp := Written(s.img, false))) else None
    case SyncTmp =>
      if s.phase.Flushed? && s.tmp.Written? then Some(s.(phase := Synced, tmp := s.tmp.(synced := true))) else None
    case Rename => if s.phase.Synced? then Some(s.(phase := Replaced, file := s.tmp, tmp := Missing)) else None
    case SkipSave => if s.phase.Published? && !cfg.persist then Some(s.(phase := Replaced)) else None
    case SaveFails =>
      if cfg.persist && cfg.writesFail && (s.phase.Published? || s.phase.Opened? || s.phase.Flushed? || s.phase.Synced?)
      then Some(s.(phase := Replaced)) else None
    case Release => if s.phase.Replaced? then Some(s.(phase := Idle)) else None
    case Crash(keepTmp, keepFile) =>
      if s.phase.Down? then None
      else Some(s.(phase := Down, img := EMPTY_IMAGE, payload := map[],
                   tmp := AfterCrash(s.tmp, keepTmp), file := AfterCrash(s.file, keepFile)))
    case Serve => if LockFree(s.phase) then Some(s.(log := s.log + [s.payload])) else None
  }

  function Exec(cfg: Config, steps: seq<Action>): Option<State> {
    if steps == [] then Some(INIT)
    else match Exec(cfg, steps[..|steps|-1])
         case None => None
         case Some(s) => Do(cfg, s, steps[|steps|-1])
  }

  lemma Extend(cfg: Config, run: seq<Action>, s: State, step: Action)
    requires Exec(cfg, run) == Some(s)
    ensures Exec(cfg, run + [step]) == Do(cfg, s, step)
  {
    assert (run + [step])[..|run|] == run;
  }

  // ---------------------------------------------------------------------
  // Invariant 1, for every configuration: memory is the restart-safe run of real scrapes.

  /** A scrape the upstream has (at least) reached. */
  predicate Behind(a: Scrape, up: Upstream, k: string) {
    && a.past >= 0.0 && a.raw >= 0.0
    && a.epoch <= up.epoch
    && (a.epoch == up.epoch ==> a.past == Get(up.past, k) && a.raw <= Get(up.cur, k))
    && (a.epoch < up.epoch ==> a.past + a.raw <= Get(up.past, k))
  }

  predicate Counts(up: Upstream) {
    (forall k :: k in up.past ==> up.past[k] >= 0.0) && (forall k :: k in up.cur ==> up.cur[k] >= 0.0)
  }

  ghost predicate TrackedAt(img: Image, up: Upstream, k: string) {
    var s := img.Seen(k);
    && CellAt(img.mem, k) == Track(s) && Track(s).Valid()
    && WellFormed(s)
    && (s != [] ==> Behind(s[|s|-1], up, k))
  }

  ghost predicate Tracked(img: Image, up: Upstream) { forall k :: TrackedAt(img, up, k) }

  predicate NextAt(img: Image, a: Scrape, k: string) {
    var s := img.Seen(k);
    s != [] ==> Follows(s[|s|-1], a)
  }

  predicate BodyNext(img: Image, body: map<string, Scrape>, up: Upstream) {
    forall k :: k in body ==> Behind(body[k], up, k) && NextAt(img, body[k], k)
  }

  predicate Bounded(p: Payload, up: Upstream) { forall k :: k in p ==> p[k] <= up.Truth(k) }

  ghost predicate TruthInv(s: State) {
    && Counts(s.up)
    && Tracked(s.img, s.up)
    && (s.file.Written? ==> Tracked(s.file.img, s.up))
    && (s.tmp.Written? ==> Tracked(s.tmp.img, s.up))
    && (s.phase.Fetched? ==> BodyNext(s.img, s.phase.body, s.up))
    && (s.phase.Transformed? ==> Bounded(s.phase.out, s.up))
    && Bounded(s.payload, s.up)
    && (forall i :: 0 <= i < |s.log| ==> Bounded(s.log[i], s.up))
  }

  /** The upstream only moves forward. */
  ghost predicate Later(up: Upstream, next: Upstream) {
    forall k ::
      && up.Truth(k) <= next.Truth(k)
      && up.epoch <= next.epoch
      && (up.epoch == next.epoch ==> Get(up.past, k) == Get(next.past, k) && Get(up.cur, k) <= Get(next.cur, k))
      && (up.epoch < next.epoch ==> up.Truth(k) <= Get(next.past, k))
  }

  lemma BehindLater(a: Scrape, up: Upstream, next: Upstream, k: string)
    requires Behind(a, up, k) && Later(up, next) && Counts(up) && Counts(next)
    ensures Behind(a, next, k)
  {}

  lemma TrackedLater(img: Image, up: Upstream, next: Upstream)
    requires Tracked(img, up) && Later(up, next) && Counts(up) && Counts(next)
    ensures Tracked(img, next)
  {
    forall k ensures TrackedAt(img, next, k) {
      assert TrackedAt(img, up, k);
      var s := img.Seen(k);
      if s != [] { BehindLater(s[|s|-1], up, next, k); }
    }
  }

  lemma UpstreamMoves(s: State, next: Upstream)
    requires TruthInv(s) && Later(s.up, next) && Counts(next)
    ensures TruthInv(s.(up := next))
  {
    TrackedLater(s.img, s.up, next);
    if s.file.Written? { TrackedLater(s.file.img, s.up, next); }
    if s.tmp.Written? { TrackedLater(s.tmp.img, s.up, next); }
    if s.phase.Fetched? {
      forall k | k in s.phase.body ensures Behind(s.phase.body[k], next, k) {
        BehindLater(s.phase.body[k], s.up, next, k);
      }
    }
  }

  lemma TakeKeepsTrack(img: Image, body: map<string, Scrape>, up: Upstream)
    requires Counts(up) && Tracked(img, up) && BodyNext(img, body, up)
    ensures Tracked(Take(img, body), up)
    ensures forall k :: img.Served(k) <= Take(img, body).Served(k)
    ensures forall k :: k in body ==> Take(img, body).Seen(k) == img.Seen(k) + [body[k]]
    ensures forall k :: Take(img, body).Served(k) <= up.Truth(k) || Take(img, body).Seen(k) == []
  {
    var next := Take(img, body);
    forall k
      ensures TrackedAt(next, up, k) && img.Served(k) <= next.Served(k)
      ensures k in body ==> next.Seen(k) == img.Seen(k) + [body[k]]
      ensures next.Served(k) <= up.Truth(k) || next.Seen(k) == []
    {
      TakeAt(img, body, up, k);
    }
  }

  lemma TakeAt(img: Image, body: map<string, Scrape>, up: Upstream, k: string)
    requires Counts(up) && TrackedAt(img, up, k) && BodyNext(img, body, up)
    ensures var next := Take(img, body);
            && TrackedAt(next, up, k) && img.Served(k) <= next.Served(k)
            && next.Seen(k) == img.Seen(k) + (if k in body then [body[k]] else [])
            && (next.Served(k) <= up.Truth(k) || next.Seen(k) == [])
  {
    ObserveAllIsStep(img.mem, Raw(body), k);
    TakenSeen(img, body, k);
    if k in body {
      assert Behind(body[k], up, k) && NextAt(img, body[k], k);
      SeenNext(img.Seen(k), body[k], up, k);
    } else if img.Seen(k) != [] {
      TruthBound(img.Seen(k), up, k);
    }
  }

  lemma TakenSeen(img: Image, body: map<string, Scrape>, k: string)
    ensures Take(img, body).Seen(k) == img.Seen(k) + if k in body then [body[k]] else []
    ensures k !in body ==> Take(img, body).Seen(k) == img.Seen(k)
  {
    assert img.Seen(k) + [] == img.Seen(k);
  }

  lemma SeenNext(s: seq<Scrape>, a: Scrape, up: Upstream, k: string)
    requires Counts(up) && WellFormed(s) && Behind(a, up, k) && (s != [] ==> Follows(s[|s|-1], a))
    ensures WellFormed(s + [a]) && Track(s + [a]) == Step(Track(s), a.raw)
    ensures Track(s + [a]).Valid() && Track(s + [a]).Served() <= up.Truth(k)
  {
    TrackAppend(s, a);
    TruthBound(s + [a], up, k);
  }

  lemma TruthBound(s: seq<Scrape>, up: Upstream, k: string)
    requires Counts(up) && s != [] && WellFormed(s) && Behind(s[|s|-1], up, k)
    ensures Track(s).Served() <= up.Truth(k) && Track(s).Valid()
  {
    ServedIsAtMostTruth(s);
    Accounting(s);
  }

  lemma RenderBounded(img: Image, body: map<string, Scrape>, up: Upstream)
    requires Counts(up) && Tracked(img, up) && BodyNext(img, body, up)
    ensures Bounded(Render(Take(img, body), body), up)
  {
    TakeKeepsTrack(img, body, up);
  }

  lemma ReadBodyIsNext(img: Image, up: Upstream, keys: set<string>)
    requires Counts(up) && Tracked(img, up)
    ensures BodyNext(img, ReadBody(up, keys), up)
  {
    var body := ReadBody(up, keys);
    forall k | k in body ensures Behind(body[k], up, k) && NextAt(img, body[k], k) {
      assert TrackedAt(img, up, k);
    }
  }

  lemma LoadedIsFile(cfg: Config, file: Content, up: Upstream)
    requires file.Written? ==> Tracked(file.img, up)
    ensures Tracked(Loaded(cfg, file), up)
    ensures cfg.persist && file.Written? ==> forall k :: Loaded(cfg, file).Served(k) == file.img.Served(k)
    ensures !cfg.persist || !file.Written? ==> Loaded(cfg, file) == EMPTY_IMAGE
  {
    var img := Loaded(cfg, file);
    forall k
      ensures TrackedAt(img, up, k)
      ensures cfg.persist && file.Written? ==> img.Served(k) == file.img.Served(k)
    {
      if cfg.persist && file.Written? {
        assert TrackedAt(file.img, up, k);
        assert CellAt(file.img.mem, k).Valid();
        assert CellAt(img.mem, k) == CellAt(file.img.mem, k);
      } else {
        assert Raws([]) == [];
      }
    }
  }

  /** Whatever a state file says, hand-edited or not: its non-negative entries are loaded as they
      are, the others are dropped, and every counter starts from a valid cell. */
  lemma LoadDropsNegatives(cfg: Config, file: Content, k: string)
    ensures var mem := Loaded(cfg, file).mem; CellAt(mem, k).Valid()
    ensures cfg.persist && file.Written? ==>
              var mem, saved := Loaded(cfg, file).mem, file.img.mem;
              && (k in mem.baseline <==> k in saved.baseline && saved.baseline[k] >= 0.0)
              && (k in mem.lastRaw <==> k in saved.lastRaw && saved.lastRaw[k] >= 0.0)
              && (k in mem.baseline ==> mem.baseline[k] == saved.baseline[k])
              && (k in mem.lastRaw ==> mem.lastRaw[k] == saved.lastRaw[k])
  {}

  lemma EmptyTracked(up: Upstream)
    ensures Tracked(EMPTY_IMAGE, up)
  {
    forall k ensures TrackedAt(EMPTY_IMAGE, up, k) { assert Raws([]) == []; }
  }

  lemma TruthStep(cfg: Config, s: State, step: Action)
    requires TruthInv(s) && Do(cfg, s, step).Some?
    ensures TruthInv(Do(cfg, s, step).value)
  {
    match step
    case Count(k, amount) => TruthCount(s, k, amount);
    case UpstreamRestart => TruthRestart(s);
    case Load => LoadedIsFile(cfg, s.file, s.up);
    case Fetch(keys) => ReadBodyIsNext(s.img, s.up, keys);
    case TakeIn =>
      TakeKeepsTrack(s.img, s.phase.body, s.up);
      RenderBounded(s.img, s.phase.body, s.up);
    case TakeInFails(keys) =>
      assert BodyNext(s.img, Part(s.phase.body, keys), s.up);
      TakeKeepsTrack(s.img, Part(s.phase.body, keys), s.up);
    case Crash(_, _) => EmptyTracked(s.up);
    case Serve =>
    case _ => TruthPoll(cfg, s, step);
  }

  /** The poll thread's other steps only move what is already tracked. */
  lemma TruthPoll(cfg: Config, s: State, step: Action)
    requires TruthInv(s) && Do(cfg, s, step).Some?
    requires step.FetchFails? || step.ReportFailure? || step.Publish? || step.OpenTmp? || step.WriteTmp?
             || step.SyncTmp?
             || step.Rename? || step.SkipSave? || step.SaveFails? || step.Release?
    ensures TruthInv(Do(cfg, s, step).value)
  {}

  lemma TruthCount(s: State, k: string, amount: real)
    requires TruthInv(s) && amount >= 0.0
    ensures TruthInv(s.(up := s.up.(cur := s.up.cur[k := Get(s.up.cur, k) + amount])))
  {
    UpstreamMoves(s, s.up.(cur := s.up.cur[k := Get(s.up.cur, k) + amount]));
  }

  lemma TruthRestart(s: State)
    requires TruthInv(s)
    ensures TruthInv(s.(up := Restarted(s.up)))
  {
    UpstreamMoves(s, Restarted(s.up));
  }

  lemma {:induction false} TruthInvHolds(cfg: Config, steps: seq<Action>)
    requires Exec(cfg, steps).Some?
    ensures TruthInv(Exec(cfg, steps).value)
  {
    if steps == [] {
      EmptyTracked(INIT.up);
    } else {
      TruthInvHolds(cfg, steps[..|steps|-1]);
      TruthStep(cfg, Exec(cfg, steps[..|steps|-1]).value, steps[|steps|-1]);
    }
  }

  /** On every run of every configuration, nothing served ever exceeds what the server has
      truly counted over all its incarnations. */
  lemma NeverOverCounts(cfg: Config, steps: seq<Action>, i: nat, k: string)
    requires Exec(cfg, steps).Some?
    requires var s := Exec(cfg, steps).value; i < |s.log| && k in s.log[i]
    ensures var s := Exec(cfg, steps).value; s.log[i][k] <= s.up.Truth(k)
  {
    TruthInvHolds(cfg, steps);
  }

  /** A scrape taken in serves what the server has truly counted up to its fetch exactly when
      the scrapes the exporter's memory stems from, this one included, were clean. */
  lemma ExactWhenClean(cfg: Config, steps: seq<Action>, keys: set<string>, k: string)
    requires Exec(cfg, steps).Some? && Exec(cfg, steps).value.phase.Idle?
    requires k in keys && k in Exec(cfg, steps).value.up.cur
    ensures var s := Exec(cfg, steps).value;
            var body := ReadBody(s.up, keys);
            var history := s.img.Seen(k) + [body[k]];
            && Exec(cfg, steps + [Fetch(keys), TakeIn]).Some?
            && Exec(cfg, steps + [Fetch(keys), TakeIn]).value.phase == Transformed(Render(Take(s.img, body), body))
            && (Render(Take(s.img, body), body)[k] == s.up.Truth(k) <==> Clean(history))
  {
    TruthInvHolds(cfg, steps);
    var s := Exec(cfg, steps).value;
    FetchAndTake(cfg, steps, s, keys);
    TakenExactly(s, keys, k);
  }

  lemma TakenExactly(s: State, keys: set<string>, k: string)
    requires TruthInv(s) && k in keys && k in s.up.cur
    ensures var body := ReadBody(s.up, keys);
            Render(Take(s.img, body), body)[k] == s.up.Truth(k) <==> Clean(s.img.Seen(k) + [body[k]])
  {
    var body := ReadBody(s.up, keys);
    ReadBodyIsNext(s.img, s.up, keys);
    TakeAt(s.img, body, s.up, k);
    assert TrackedAt(Take(s.img, body), s.up, k);
    ServedIsAtMostTruth(s.img.Seen(k) + [body[k]]);
  }

  lemma FetchAndTake(cfg: Config, steps: seq<Action>, s: State, keys: set<string>)
    requires Exec(cfg, steps) == Some(s) && s.phase.Idle?
    ensures var body := ReadBody(s.up, keys);
            && Exec(cfg, steps + [Fetch(keys), TakeIn]).Some?
            && Exec(cfg, steps + [Fetch(keys), TakeIn]).value.phase == Transformed(Render(Take(s.img, body), body))
  {
    Extend(cfg, steps, s, Fetch(keys));
    Extend(cfg, steps + [Fetch(keys)], s.(phase := Fetched(ReadBody(s.up, keys))), TakeIn);
    assert steps + [Fetch(keys)] + [TakeIn] == steps + [Fetch(keys), TakeIn];
  }
}
