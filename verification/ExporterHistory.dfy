/** What the exporter remembers, has saved and serves, read off the list of steps that happened
    rather than off its state, and which step may come next. */
module ExporterHistory {
  import opened Decimal
  import opened Counter
  import opened Exporter
  import opened ExporterProtocol

  // ---------------------------------------------------------------------
  // The upstream

  function Restarts(steps: seq<Action>): nat {
    if steps == [] then 0 else Restarts(steps[..|steps|-1]) + if steps[|steps|-1].UpstreamRestart? then 1 else 0
  }

  /** Everything counted for a series, and what of it since the upstream last started. */
  function Ever(steps: seq<Action>, k: string): real {
    if steps == [] then 0.0
    else
      var last := steps[|steps|-1];
      Ever(steps[..|steps|-1], k) + if last.Count? && last.k == k then last.amount else 0.0
  }

  function Lately(steps: seq<Action>, k: string): real {
    if steps == [] || steps[|steps|-1].UpstreamRestart? then 0.0
    else
      var last := steps[|steps|-1];
      Lately(steps[..|steps|-1], k) + if last.Count? && last.k == k then last.amount else 0.0
  }

  /** The series has been counted since the upstream last started, so its page has a line for it. */
  predicate Listed(steps: seq<Action>, k: string) {
    && steps != [] && !steps[|steps|-1].UpstreamRestart?
    && ((steps[|steps|-1].Count? && steps[|steps|-1].k == k) || Listed(steps[..|steps|-1], k))
  }

  ghost predicate UpstreamIs(steps: seq<Action>, up: Upstream) {
    && up.epoch == Restarts(steps)
    && forall k ::
         (k in up.cur <==> Listed(steps, k)) && Get(up.cur, k) == Lately(steps, k) && up.Truth(k) == Ever(steps, k)
  }

  /** The upstream is what was counted, whatever the exporter did meanwhile. */
  lemma {:induction false} UpstreamByHistory(cfg: Config, steps: seq<Action>)
    requires Exec(cfg, steps).Some?
    ensures UpstreamIs(steps, Exec(cfg, steps).value.up)
  {
    if steps == [] {
    } else {
      UpstreamByHistory(cfg, steps[..|steps|-1]);
      var s, t := Exec(cfg, steps[..|steps|-1]).value, Exec(cfg, steps).value;
      match steps[|steps|-1]
      case Count(_, _) =>
      case UpstreamRestart =>
      case _ => assert t.up == s.up by { ExporterLeavesUpstream(cfg, s, steps[|steps|-1]); }
    }
  }

  lemma ExporterLeavesUpstream(cfg: Config, s: State, step: Action)
    requires !step.Count? && !step.UpstreamRestart? && Do(cfg, s, step).Some?
    ensures Do(cfg, s, step).value.up == s.up
  {}

  // ---------------------------------------------------------------------
  // What the exporter has read, remembers and has saved.

  function LastFetch(steps: seq<Action>): (i: Option<nat>)
    ensures i.Some? ==> i.value < |steps| && steps[i.value].Fetch?
  {
    if steps == [] then None
    else if steps[|steps|-1].Fetch? then Some(|steps| - 1)
    else LastFetch(steps[..|steps|-1])
  }

  function LastRename(steps: seq<Action>): (i: Option<nat>)
    ensures i.Some? ==> i.value < |steps| && steps[i.value].Rename?
  {
    if steps == [] then None
    else if steps[|steps|-1].Rename? then Some(|steps| - 1)
    else LastRename(steps[..|steps|-1])
  }

  /** The series is in the body fetched last. */
  predicate Fetched(steps: seq<Action>, k: string) {
    var i := LastFetch(steps);
    i.Some? && k in steps[i.value].keys && Listed(steps[..i.value], k)
  }

  /** What that body says of it: the counts at the time of the fetch. */
  function Reading(steps: seq<Action>, k: string): Scrape
    requires Fetched(steps, k)
  {
    var past := steps[..LastFetch(steps).value];
    Scrape(Restarts(past), Ever(past, k) - Lately(past, k), Lately(past, k))
  }

  /** The readings of a series that memory stems from: those taken in since the exporter started,
      after those of the memory that was last renamed into place before it did. */
  function Remembered(cfg: Config, steps: seq<Action>, k: string): seq<Scrape>
    decreases |steps|
  {
    if steps == [] then []
    else
      var front := steps[..|steps|-1];
      match steps[|steps|-1]
      case TakeIn => Remembered(cfg, front, k) + if Fetched(front, k) then [Reading(front, k)] else []
      case TakeInFails(keys) =>
        Remembered(cfg, front, k) + if Fetched(front, k) && k in keys then [Reading(front, k)] else []
      case Crash(_, _) => []
      case Load =>
        var saved := LastRename(front);
        if cfg.persist && saved.Some? then Remembered(cfg, steps[..saved.value], k) else []
      case _ => Remembered(cfg, front, k)
  }

  ghost predicate Holds(cfg: Config, steps: seq<Action>, img: Image) {
    forall k :: img.Seen(k) == Remembered(cfg, steps, k)
  }

  ghost predicate FileIs(cfg: Config, steps: seq<Action>, file: Content) {
    match LastRename(steps)
    case None => file == Missing
    case Some(i) => file.Written? && file.synced && Holds(cfg, steps[..i], file.img)
  }

  // ---------------------------------------------------------------------
  // What is served

  /** A payload lists the series of the body fetched last, each at its restart-safe value. */
  ghost predicate Renders(cfg: Config, steps: seq<Action>, p: Payload) {
    forall k :: (k in p <==> Fetched(steps, k)) && (k in p ==> p[k] == Track(Remembered(cfg, steps, k)).Served())
  }

  predicate DecidesPayload(step: Action) {
    step.Publish? || step.FetchFails? || step.ReportFailure? || step.Load? || step.Crash?
  }

  function LastWord(steps: seq<Action>): (i: Option<nat>)
    ensures i.Some? ==> i.value < |steps|
  {
    if steps == [] then None
    else if DecidesPayload(steps[|steps|-1]) then Some(|steps| - 1)
    else LastWord(steps[..|steps|-1])
  }

  /** What was published, unless the last word was a failure or a start. */
  ghost predicate PayloadIs(cfg: Config, steps: seq<Action>, p: Payload) {
    match LastWord(steps)
    case Some(i) => if steps[i].Publish? then Renders(cfg, steps[..i], p) else p == map[]
    case None => p == map[]
  }

  // ---------------------------------------------------------------------
  // Where the poll loop is.

  predicate Outside(step: Action) { step.Count? || step.UpstreamRestart? || step.Serve? }

  /** The exporter's own last step. */
  function LastPoll(steps: seq<Action>): Option<Action> {
    if steps == [] then None
    else if Outside(steps[|steps|-1]) then LastPoll(steps[..|steps|-1])
    else Some(steps[|steps|-1])
  }

  predicate Resting(last: Option<Action>) {
    last.Some? && (last.value.Load? || last.value.FetchFails? || last.value.ReportFailure? || last.value.Release?)
  }

  predicate Running(last: Option<Action>) { last.Some? && !last.value.Crash? }

  /** The save is over, whichever way it went. */
  predicate SaveOver(last: Option<Action>) {
    last.Some? && (last.value.Rename? || last.value.SkipSave? || last.value.SaveFails?)
  }

  /** Which step may follow the exporter's own last one. */
  predicate MayFollow(cfg: Config, last: Option<Action>, step: Action) {
    match step
    case Count(_, amount) => amount >= 0.0
    case UpstreamRestart => true
    case Load => !Running(last)
    case Fetch(_) => Resting(last)
    case FetchFails => Resting(last)
    case TakeIn => last.Some? && last.value.Fetch?
    case TakeInFails(_) => last.Some? && last.value.Fetch?
    case ReportFailure => last.Some? && last.value.TakeInFails?
    case Publish => last == Some(TakeIn)
    case OpenTmp => cfg.persist && last == Some(Publish)
    case WriteTmp => last == Some(OpenTmp)
    case SyncTmp => last == Some(WriteTmp)
    case Rename => last == Some(SyncTmp)
    case SkipSave => !cfg.persist && last == Some(Publish)
    case SaveFails =>
      cfg.persist && cfg.writesFail && last in {Some(Publish), Some(OpenTmp), Some(WriteTmp), Some(SyncTmp)}
    case Release => SaveOver(last)
    case Crash(_, _) => Running(last)
    case Serve => Resting(last) || (last.Some? && (last.value.Fetch? || last.value.TakeInFails?))
  }

  predicate PhaseIs(last: Option<Action>, p: Phase) {
    match p
    case Down => !Running(last)
    case Idle => Resting(last)
    case Fetched(_) => last.Some? && last.value.Fetch?
    case Failing => last.Some? && last.value.TakeInFails?
    case Transformed(_) => last == Some(TakeIn)
    case Published => last == Some(Publish)
    case Opened => last == Some(OpenTmp)
    case Flushed => last == Some(WriteTmp)
    case Synced => last == Some(SyncTmp)
    case Replaced => SaveOver(last)
  }

  // ---------------------------------------------------------------------
  // The state is what the history says.

  ghost predicate BodyIs(steps: seq<Action>, body: map<string, Scrape>) {
    forall k :: (k in body <==> Fetched(steps, k)) && (k in body ==> body[k] == Reading(steps, k))
  }

  ghost predicate PollIs(cfg: Config, steps: seq<Action>, s: State) {
    && PhaseIs(LastPoll(steps), s.phase)
    && (s.phase.Fetched? ==> BodyIs(steps, s.phase.body))
    && (s.phase.Transformed? ==> Renders(cfg, steps, s.phase.out))
    && ((s.phase.Opened? || s.phase.Flushed? || s.phase.Synced?) ==> cfg.persist)
    && ((s.phase.Flushed? || s.phase.Synced?) ==> s.tmp.Written? && Holds(cfg, steps, s.tmp.img))
    && (s.phase.Synced? ==> s.tmp.synced)
  }

  ghost predicate StateIs(cfg: Config, steps: seq<Action>, s: State) {
    Holds(cfg, steps, s.img) && FileIs(cfg, steps, s.file) && PollIs(cfg, steps, s) && PayloadIs(cfg, steps, s.payload)
  }

  lemma FrontPrefix(steps: seq<Action>, i: nat)
    requires i < |steps|
    ensures steps[..|steps|-1][..i] == steps[..i]
  {}

  lemma FetchedStays(steps: seq<Action>, k: string)
    requires steps != [] && !steps[|steps|-1].Fetch?
    ensures Fetched(steps, k) <==> Fetched(steps[..|steps|-1], k)
    ensures Fetched(steps, k) ==> Reading(steps, k) == Reading(steps[..|steps|-1], k)
  {
    var i := LastFetch(steps);
    if i.Some? { FrontPrefix(steps, i.value); }
  }

  lemma FetchedNow(steps: seq<Action>, up: Upstream)
    requires steps != [] && steps[|steps|-1].Fetch? && UpstreamIs(steps[..|steps|-1], up)
    ensures BodyIs(steps, ReadBody(up, steps[|steps|-1].keys))
  {
    assert LastFetch(steps) == Some(|steps| - 1);
  }

  /** What one step does to memory. */
  lemma HoldsStep(cfg: Config, steps: seq<Action>, s: State, t: State)
    requires steps != [] && Do(cfg, s, steps[|steps|-1]) == Some(t) && StateIs(cfg, steps[..|steps|-1], s)
    ensures Holds(cfg, steps, t.img)
  {
    var front, step := steps[..|steps|-1], steps[|steps|-1];
    forall k ensures t.img.Seen(k) == Remembered(cfg, steps, k) {
      assert s.img.Seen(k) == Remembered(cfg, front, k);
      match step
      case TakeIn => TakenSeen(s.img, s.phase.body, k);
      case TakeInFails(keys) => TakenSeen(s.img, Part(s.phase.body, keys), k);
      case Load => LoadedSeen(cfg, steps, s, k);
      case Crash(_, _) =>
      case _ => assert t.img == s.img by { OthersKeepImage(cfg, s, step); }
    }
  }

  lemma LoadedSeen(cfg: Config, steps: seq<Action>, s: State, k: string)
    requires steps != [] && FileIs(cfg, steps[..|steps|-1], s.file)
    ensures var saved := LastRename(steps[..|steps|-1]);
            Loaded(cfg, s.file).Seen(k)
            == if cfg.persist && saved.Some? then Remembered(cfg, steps[..saved.value], k) else []
  {
    var saved := LastRename(steps[..|steps|-1]);
    if saved.Some? { FrontPrefix(steps, saved.value); }
  }

  lemma OthersKeepImage(cfg: Config, s: State, step: Action)
    requires Do(cfg, s, step).Some? && !step.TakeIn? && !step.TakeInFails? && !step.Load? && !step.Crash?
    ensures Do(cfg, s, step).value.img == s.img
  {}

  lemma FileStep(cfg: Config, steps: seq<Action>, s: State, t: State)
    requires steps != [] && Do(cfg, s, steps[|steps|-1]) == Some(t) && StateIs(cfg, steps[..|steps|-1], s)
    ensures FileIs(cfg, steps, t.file)
  {
    var front, step := steps[..|steps|-1], steps[|steps|-1];
    if step.Rename? {
      assert LastRename(steps) == Some(|front|) && steps[..|front|] == front;
    } else {
      OthersKeepFile(cfg, s, step);
      var saved := LastRename(front);
      if saved.Some? { FrontPrefix(steps, saved.value); }
    }
  }

  lemma OthersKeepFile(cfg: Config, s: State, step: Action)
    requires Do(cfg, s, step).Some? && !step.Rename?
    requires s.file == Missing || (s.file.Written? && s.file.synced)
    ensures Do(cfg, s, step).value.file == s.file
  {}

  lemma PayloadStep(cfg: Config, steps: seq<Action>, s: State, t: State)
    requires steps != [] && Do(cfg, s, steps[|steps|-1]) == Some(t) && StateIs(cfg, steps[..|steps|-1], s)
    ensures PayloadIs(cfg, steps, t.payload)
  {
    if DecidesPayload(steps[|steps|-1]) {
      PayloadDecided(cfg, steps, s, t);
    } else {
      OthersKeepPayload(cfg, s, steps[|steps|-1]);
      PayloadStays(cfg, steps, s.payload);
    }
  }

  lemma PayloadDecided(cfg: Config, steps: seq<Action>, s: State, t: State)
    requires steps != [] && Do(cfg, s, steps[|steps|-1]) == Some(t) && PollIs(cfg, steps[..|steps|-1], s)
    requires DecidesPayload(steps[|steps|-1])
    ensures PayloadIs(cfg, steps, t.payload)
  {
    assert LastWord(steps) == Some(|steps| - 1);
  }

  lemma PayloadStays(cfg: Config, steps: seq<Action>, p: Payload)
    requires steps != [] && !DecidesPayload(steps[|steps|-1]) && PayloadIs(cfg, steps[..|steps|-1], p)
    ensures PayloadIs(cfg, steps, p)
  {
    var i := LastWord(steps[..|steps|-1]);
    assert LastWord(steps) == i;
    if i.Some? { FrontPrefix(steps, i.value); }
  }

  lemma OthersKeepPayload(cfg: Config, s: State, step: Action)
    requires Do(cfg, s, step).Some? && !DecidesPayload(step)
    ensures Do(cfg, s, step).value.payload == s.payload
  {}

  lemma PhaseStep(cfg: Config, steps: seq<Action>, s: State, t: State)
    requires steps != [] && Do(cfg, s, steps[|steps|-1]) == Some(t) && PhaseIs(LastPoll(steps[..|steps|-1]), s.phase)
    ensures PhaseIs(LastPoll(steps), t.phase)
  {
    if Outside(steps[|steps|-1]) {
      OutsideKeepsPhase(cfg, s, steps[|steps|-1]);
    } else {
      PhaseAfter(cfg, s, steps[|steps|-1]);
    }
  }

  lemma OutsideKeepsPhase(cfg: Config, s: State, step: Action)
    requires Do(cfg, s, step).Some? && Outside(step)
    ensures Do(cfg, s, step).value.phase == s.phase
  {}

  lemma PhaseAfter(cfg: Config, s: State, step: Action)
    requires Do(cfg, s, step).Some? && !Outside(step)
    ensures PhaseIs(Some(step), Do(cfg, s, step).value.phase)
  {}

  lemma PollStep(cfg: Config, steps: seq<Action>, s: State, t: State)
    requires steps != [] && Do(cfg, s, steps[|steps|-1]) == Some(t) && StateIs(cfg, steps[..|steps|-1], s)
    requires UpstreamIs(steps[..|steps|-1], s.up) && TruthInv(t) && Holds(cfg, steps, t.img)
    ensures PollIs(cfg, steps, t)
  {
    var step := steps[|steps|-1];
    PhaseStep(cfg, steps, s, t);
    if step.Fetch? {
      FetchedNow(steps, s.up);
    } else if step.TakeIn? {
      RenderedNow(cfg, steps, s, t);
    } else if Outside(step) {
      OutsideKeepsPoll(cfg, steps, s, t);
    } else {
      SaveStep(cfg, steps, s, t);
    }
  }

  lemma RenderedNow(cfg: Config, steps: seq<Action>, s: State, t: State)
    requires steps != [] && steps[|steps|-1].TakeIn? && Do(cfg, s, TakeIn) == Some(t)
    requires BodyIs(steps[..|steps|-1], s.phase.body) && TruthInv(t) && Holds(cfg, steps, t.img)
    ensures Renders(cfg, steps, t.phase.out)
  {
    forall k ensures k in t.phase.out <==> Fetched(steps, k)
      ensures k in t.phase.out ==> t.phase.out[k] == Track(Remembered(cfg, steps, k)).Served()
    {
      FetchedStays(steps, k);
      assert TrackedAt(t.img, t.up, k);
    }
  }

  /** Counting, restarts and serving go on while the exporter is busy. */
  lemma OutsideKeepsPoll(cfg: Config, steps: seq<Action>, s: State, t: State)
    requires steps != [] && Outside(steps[|steps|-1]) && Do(cfg, s, steps[|steps|-1]) == Some(t)
    requires PollIs(cfg, steps[..|steps|-1], s)
    ensures PollIs(cfg, steps, t)
  {
    var front := steps[..|steps|-1];
    forall k ensures Fetched(steps, k) <==> Fetched(front, k)
      ensures Fetched(steps, k) ==> Reading(steps, k) == Reading(front, k)
      ensures Remembered(cfg, steps, k) == Remembered(cfg, front, k)
    {
      FetchedStays(steps, k);
    }
    assert t.phase == s.phase && t.tmp == s.tmp;
  }

  lemma SaveStep(cfg: Config, steps: seq<Action>, s: State, t: State)
    requires steps != [] && Do(cfg, s, steps[|steps|-1]) == Some(t) && StateIs(cfg, steps[..|steps|-1], s)
    requires !Outside(steps[|steps|-1]) && !steps[|steps|-1].Fetch? && !steps[|steps|-1].TakeIn?
    requires PhaseIs(LastPoll(steps), t.phase) && Holds(cfg, steps, t.img)
    ensures PollIs(cfg, steps, t)
  {
    forall k | steps[|steps|-1].SyncTmp? ensures Remembered(cfg, steps, k) == Remembered(cfg, steps[..|steps|-1], k) {}
  }

  /** Every reachable state is what its history says: memory stems from the readings taken in
      since the start and those saved before, the state file holds the memory of the last rename,
      and the payload is what was last published, or nothing since a failure or a start. */
  lemma {:induction false} StateByHistory(cfg: Config, steps: seq<Action>)
    requires Exec(cfg, steps).Some?
    ensures StateIs(cfg, steps, Exec(cfg, steps).value)
  {
    if steps == [] {
    } else {
      var front := steps[..|steps|-1];
      var s, t := Exec(cfg, front).value, Exec(cfg, steps).value;
      StateByHistory(cfg, front);
      UpstreamByHistory(cfg, front);
      TruthInvHolds(cfg, steps);
      HoldsStep(cfg, steps, s, t);
      FileStep(cfg, steps, s, t);
      PayloadStep(cfg, steps, s, t);
      PollStep(cfg, steps, s, t);
    }
  }

  /** The payload, and what memory serves, over the list of steps alone. */
  lemma PayloadByHistory(cfg: Config, steps: seq<Action>)
    requires Exec(cfg, steps).Some?
    ensures PayloadIs(cfg, steps, Exec(cfg, steps).value.payload)
    ensures forall k :: Exec(cfg, steps).value.img.Served(k) == Track(Remembered(cfg, steps, k)).Served()
  {
    StateByHistory(cfg, steps);
    TruthInvHolds(cfg, steps);
    forall k ensures Exec(cfg, steps).value.img.Served(k) == Track(Remembered(cfg, steps, k)).Served() {
      assert TrackedAt(Exec(cfg, steps).value.img, Exec(cfg, steps).value.up, k);
    }
  }

  /** A serve hands out the payload that stands, and that is nothing right after a failure. */
  lemma ServeByHistory(cfg: Config, steps: seq<Action>)
    requires Exec(cfg, steps + [Serve]).Some?
    ensures Exec(cfg, steps).Some?
    ensures var before, after := Exec(cfg, steps).value.log, Exec(cfg, steps + [Serve]).value.log;
            && |after| == |before| + 1 && after[..|before|] == before && PayloadIs(cfg, steps, after[|before|])
            && (steps != [] && (steps[|steps|-1].FetchFails? || steps[|steps|-1].ReportFailure?) ==>
                  after[|before|] == map[])
  {
    assert (steps + [Serve])[..|steps|] == steps;
    StateByHistory(cfg, steps);
  }

  /** Only serving adds to what was served. */
  lemma OnlyServesAreLogged(cfg: Config, steps: seq<Action>, step: Action)
    requires Exec(cfg, steps + [step]).Some? && !step.Serve?
    ensures Exec(cfg, steps).Some? && Exec(cfg, steps + [step]).value.log == Exec(cfg, steps).value.log
  {
    assert (steps + [step])[..|steps|] == steps;
  }

  /** Which steps are possible depends on the exporter's own last step alone; it serves while
      running and not between a transform and the end of its save. */
  lemma PossibleIff(cfg: Config, steps: seq<Action>, step: Action)
    requires Exec(cfg, steps).Some?
    ensures Exec(cfg, steps + [step]).Some? <==> MayFollow(cfg, LastPoll(steps), step)
  {
    StateByHistory(cfg, steps);
    Extend(cfg, steps, Exec(cfg, steps).value, step);
    PossibleIn(cfg, steps, Exec(cfg, steps).value, step);
  }

  lemma PossibleIn(cfg: Config, steps: seq<Action>, s: State, step: Action)
    requires PollIs(cfg, steps, s)
    ensures Do(cfg, s, step).Some? <==> MayFollow(cfg, LastPoll(steps), step)
  {}
}
