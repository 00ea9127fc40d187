/** Monotone service: what the exporter has served survives every crash that finds it saved. */
module ExporterSafety {
  import opened Decimal
  import opened Counter
  import opened Exporter
  import opened ExporterProtocol

  // ---------------------------------------------------------------------
  // Invariant 2, as long as no crash hits memory that a save has left behind: nothing is served
  // that could be lost.

  /** Whether memory may have served what the state file does not hold: a scrape was released
      without being saved, and none has been saved since. */
  function Unsaved(steps: seq<Action>): bool {
    if steps == [] then false else NowUnsaved(Unsaved(steps[..|steps|-1]), steps[|steps|-1])
  }

  function NowUnsaved(before: bool, step: Action): bool {
    if step.SaveFails? || step.SkipSave? then true else if step.Rename? then false else before
  }

  /** Every crash finds the last released scrape saved. */
  predicate CrashesFindItSaved(steps: seq<Action>) {
    forall i :: 0 <= i < |steps| && steps[i].Crash? ==> !Unsaved(steps[..i])
  }

  predicate Within(p: Payload, img: Image) { forall k :: k in p ==> p[k] <= img.Served(k) }

  predicate NotBelow(p: Payload, q: Payload) { forall k :: k in p && k in q ==> p[k] <= q[k] }

  predicate Monotone(log: seq<Payload>) { forall i, j :: 0 <= i < j < |log| ==> NotBelow(log[i], log[j]) }

  predicate AllNotBelow(log: seq<Payload>, p: Payload) { forall i :: 0 <= i < |log| ==> NotBelow(log[i], p) }

  /** What survives: the state file's image, or memory while it runs ahead of the file. */
  function Ceiling(cfg: Config, s: State, unsaved: bool): Image {
    if unsaved then s.img else Loaded(cfg, s.file)
  }

  ghost predicate SafeInv(cfg: Config, s: State, unsaved: bool) {
    var d := Ceiling(cfg, s, unsaved);
    && (s.file.Written? ==> s.file.synced) && !s.file.Torn?
    && (forall i :: 0 <= i < |s.log| ==> Within(s.log[i], d))
    && Monotone(s.log)
    && (s.phase.Down? ==> !unsaved)
    && (!s.phase.Down? ==> forall k :: d.Served(k) <= s.img.Served(k))
    && AllNotBelow(s.log, s.payload)
    && (LockFree(s.phase) || s.phase.Replaced? || s.phase.Transformed? ==> Within(s.payload, d))
    && (s.phase.Transformed? ==> AllNotBelow(s.log, s.phase.out) && Within(s.phase.out, s.img))
    && (s.phase.Published? || Saving(s.phase) ==> Within(s.payload, s.img))
    && (Saving(s.phase) ==> cfg.persist)
    && (s.phase.Flushed? ==> s.tmp == Written(s.img, false))
    && (s.phase.Synced? ==> s.tmp == Written(s.img, true))
  }

  predicate Saving(p: Phase) { p.Opened? || p.Flushed? || p.Synced? }

  lemma SafeTakeIn(cfg: Config, s: State, unsaved: bool, body: map<string, Scrape>)
    requires TruthInv(s) && SafeInv(cfg, s, unsaved) && !s.phase.Down? && BodyNext(s.img, body, s.up)
    ensures var img := Take(s.img, body);
            && (forall k :: s.img.Served(k) <= img.Served(k))
            && AllNotBelow(s.log, Render(img, body)) && Within(Render(img, body), img)
  {
    TakeKeepsTrack(s.img, body, s.up);
  }

  lemma SafeStep(cfg: Config, s: State, unsaved: bool, step: Action, t: State)
    requires TruthInv(s) && SafeInv(cfg, s, unsaved) && Do(cfg, s, step) == Some(t) && !(unsaved && step.Crash?)
    ensures SafeInv(cfg, t, NowUnsaved(unsaved, step))
  {
    match step
    case Count(_, _) => SafeUpstream(cfg, s, unsaved, step, t);
    case UpstreamRestart => SafeUpstream(cfg, s, unsaved, step, t);
    case Load => SafeLoad(cfg, s, t);
    case TakeIn => SafeTaken(cfg, s, unsaved, t);
    case TakeInFails(keys) => SafeTakeInFails(cfg, s, unsaved, keys, t);
    case Crash(keepTmp, keepFile) => SafeCrash(cfg, s, keepTmp, keepFile, t);
    case Serve => SafeServe(cfg, s, unsaved, t);
    case Fetch(_) => SafePoll(cfg, s, unsaved, step, t);
    case Release => SafePoll(cfg, s, unsaved, step, t);
    case FetchFails => SafePayload(cfg, s, unsaved, step, t);
    case ReportFailure => SafePayload(cfg, s, unsaved, step, t);
    case Publish => SafePayload(cfg, s, unsaved, step, t);
    case _ => SafeSave(cfg, s, unsaved, step, t);
  }

  /** The steps of a save, whichever way it ends. */
  lemma SafeSave(cfg: Config, s: State, unsaved: bool, step: Action, t: State)
    requires TruthInv(s) && SafeInv(cfg, s, unsaved) && Do(cfg, s, step) == Some(t)
    requires step.OpenTmp? || step.WriteTmp? || step.SyncTmp? || step.Rename? || step.SkipSave? || step.SaveFails?
    ensures SafeInv(cfg, t, NowUnsaved(unsaved, step))
  {
    match step
    case Rename => SafeRename(cfg, s, unsaved, t);
    case SkipSave => SafeUnsaved(cfg, s, unsaved, step, t);
    case SaveFails => SafeUnsaved(cfg, s, unsaved, step, t);
    case _ => SafeWriting(cfg, s, unsaved, step, t);
  }

  lemma SafeUpstream(cfg: Config, s: State, unsaved: bool, step: Action, t: State)
    requires SafeInv(cfg, s, unsaved) && (step.Count? || step.UpstreamRestart?) && Do(cfg, s, step) == Some(t)
    ensures SafeInv(cfg, t, unsaved)
  {
    assert t == s.(up := t.up);
  }

  lemma SafeLoad(cfg: Config, s: State, t: State)
    requires TruthInv(s) && SafeInv(cfg, s, false) && Do(cfg, s, Load) == Some(t)
    ensures SafeInv(cfg, t, false)
  {
    LoadedIsFile(cfg, s.file, s.up);
  }

  lemma SafeTaken(cfg: Config, s: State, unsaved: bool, t: State)
    requires TruthInv(s) && SafeInv(cfg, s, unsaved) && Do(cfg, s, TakeIn) == Some(t)
    ensures SafeInv(cfg, t, unsaved)
  {
    SafeTakeIn(cfg, s, unsaved, s.phase.body);
  }

  lemma SafeTakeInFails(cfg: Config, s: State, unsaved: bool, keys: set<string>, t: State)
    requires TruthInv(s) && SafeInv(cfg, s, unsaved) && Do(cfg, s, TakeInFails(keys)) == Some(t)
    ensures SafeInv(cfg, t, unsaved)
  {
    assert BodyNext(s.img, Part(s.phase.body, keys), s.up);
    SafeTakeIn(cfg, s, unsaved, Part(s.phase.body, keys));
  }

  /** A release without a save: from now on memory is what must survive. */
  lemma SafeUnsaved(cfg: Config, s: State, unsaved: bool, step: Action, t: State)
    requires SafeInv(cfg, s, unsaved) && (step.SkipSave? || step.SaveFails?) && Do(cfg, s, step) == Some(t)
    ensures SafeInv(cfg, t, true)
  {
    forall i | 0 <= i < |s.log| ensures Within(s.log[i], s.img) {
      assert Within(s.log[i], Ceiling(cfg, s, unsaved));
    }
  }

  lemma SafeCrash(cfg: Config, s: State, keepTmp: bool, keepFile: bool, t: State)
    requires SafeInv(cfg, s, false) && Do(cfg, s, Crash(keepTmp, keepFile)) == Some(t)
    ensures SafeInv(cfg, t, false)
  {
    assert AfterCrash(s.file, keepFile) == s.file;
  }

  lemma SafeServe(cfg: Config, s: State, unsaved: bool, t: State)
    requires SafeInv(cfg, s, unsaved) && Do(cfg, s, Serve) == Some(t)
    ensures SafeInv(cfg, t, unsaved)
  {
    forall i, j | 0 <= i < j < |t.log| ensures NotBelow(t.log[i], t.log[j]) {}
  }

  /** Writing the temporary file moves neither memory nor the state file. */
  lemma SafeWriting(cfg: Config, s: State, unsaved: bool, step: Action, t: State)
    requires SafeInv(cfg, s, unsaved) && (step.OpenTmp? || step.WriteTmp? || step.SyncTmp?)
             && Do(cfg, s, step) == Some(t)
    ensures SafeInv(cfg, t, unsaved)
  {
    assert t == s.(phase := t.phase, tmp := t.tmp);
  }

  /** Nor do the poll thread's other steps. */
  lemma SafePoll(cfg: Config, s: State, unsaved: bool, step: Action, t: State)
    requires SafeInv(cfg, s, unsaved) && Do(cfg, s, step) == Some(t)
    requires step.Fetch? || step.Release?
    ensures SafeInv(cfg, t, unsaved)
  {
    assert t == s.(phase := t.phase);
  }

  /** A new payload is either empty or the scrape just taken in. */
  lemma SafePayload(cfg: Config, s: State, unsaved: bool, step: Action, t: State)
    requires SafeInv(cfg, s, unsaved) && Do(cfg, s, step) == Some(t)
    requires step.FetchFails? || step.ReportFailure? || step.Publish?
    ensures SafeInv(cfg, t, unsaved)
  {
    assert t == s.(phase := t.phase, payload := t.payload);
    assert t.payload == map[] || t.payload == s.phase.out;
  }

  lemma SafeRename(cfg: Config, s: State, unsaved: bool, t: State)
    requires TruthInv(s) && SafeInv(cfg, s, unsaved) && Do(cfg, s, Rename) == Some(t)
    ensures SafeInv(cfg, t, false)
  {
    LoadedIsFile(cfg, s.tmp, s.up);
    forall i | 0 <= i < |s.log| ensures Within(s.log[i], s.img) {
      assert Within(s.log[i], Ceiling(cfg, s, unsaved));
    }
  }

  /** On a run whose crashes find the last released scrape saved, everything ever served is
      within what survives. */
  lemma {:induction false} SafeInvHolds(cfg: Config, steps: seq<Action>)
    requires CrashesFindItSaved(steps) && Exec(cfg, steps).Some?
    ensures SafeInv(cfg, Exec(cfg, steps).value, Unsaved(steps))
  {
    if steps == [] {
      assert Exec(cfg, steps) == Some(INIT);
    } else {
      var front, step := steps[..|steps|-1], steps[|steps|-1];
      CrashesInPrefix(steps);
      SafeInvHolds(cfg, front);
      TruthInvHolds(cfg, front);
      SafeStep(cfg, Exec(cfg, front).value, Unsaved(front), step, Exec(cfg, steps).value);
    }
  }

  lemma CrashesInPrefix(steps: seq<Action>)
    requires CrashesFindItSaved(steps) && steps != []
    ensures CrashesFindItSaved(steps[..|steps|-1]) && !(Unsaved(steps[..|steps|-1]) && steps[|steps|-1].Crash?)
  {
    var front := steps[..|steps|-1];
    forall i | 0 <= i < |front| && front[i].Crash? ensures !Unsaved(front[..i]) { assert front[..i] == steps[..i]; }
  }

  /** Run by run, in every configuration: no served value decreases on a run whose crashes
      find the last released scrape saved, whatever else happens and whichever saves fail. */
  lemma MonotoneIfCrashesFindItSaved(cfg: Config, steps: seq<Action>)
    requires CrashesFindItSaved(steps) && Exec(cfg, steps).Some?
    ensures Monotone(Exec(cfg, steps).value.log)
  {
    SafeInvHolds(cfg, steps);
  }

  predicate NoFailedSave(steps: seq<Action>) { forall i :: 0 <= i < |steps| ==> !steps[i].SaveFails? }

  /** With a state file, a run in which no save failed is never ahead of it. */
  lemma {:induction false} NoFailedSaveIsSaved(cfg: Config, steps: seq<Action>)
    requires cfg.persist && NoFailedSave(steps) && Exec(cfg, steps).Some?
    ensures !Unsaved(steps)
  {
    if steps == [] {
    } else {
      NoFailedSaveIsSaved(cfg, steps[..|steps|-1]);
    }
  }

  /** With a state file, everything ever served on a run without a failed save is at most what
      the file would restore, and the file is whole: nothing is served before it is durable. */
  lemma NothingServedBeforeDurable(cfg: Config, steps: seq<Action>, i: nat, k: string)
    requires cfg.persist && NoFailedSave(steps) && Exec(cfg, steps).Some?
    requires var s := Exec(cfg, steps).value; i < |s.log| && k in s.log[i]
    ensures var s := Exec(cfg, steps).value;
            && s.log[i][k] <= Loaded(cfg, s.file).Served(k) && !s.file.Torn? && (s.file.Written? ==> s.file.synced)
            && Monotone(s.log)
  {
    FindsItSaved(cfg, steps);
    SafeInvHolds(cfg, steps);
    NoFailedSaveIsSaved(cfg, steps);
  }

  lemma FindsItSaved(cfg: Config, steps: seq<Action>)
    requires cfg.persist && NoFailedSave(steps) && Exec(cfg, steps).Some?
    ensures CrashesFindItSaved(steps)
  {
    forall i | 0 <= i < |steps| ensures !Unsaved(steps[..i]) {
      ExecPrefix(cfg, steps, i);
      NoFailedSaveIsSaved(cfg, steps[..i]);
    }
  }

  lemma {:induction false} ExecPrefix(cfg: Config, steps: seq<Action>, n: nat)
    requires n <= |steps| && Exec(cfg, steps).Some?
    ensures Exec(cfg, steps[..n]).Some?
  {
    if n == |steps| {
      assert steps[..n] == steps;
    } else {
      assert steps[..|steps|-1][..n] == steps[..n];
      ExecPrefix(cfg, steps[..|steps|-1], n);
    }
  }

  lemma {:induction false} SavesCannotFail(cfg: Config, steps: seq<Action>)
    requires !cfg.writesFail && Exec(cfg, steps).Some?
    ensures NoFailedSave(steps)
  {
    if steps == [] {
    } else {
      SavesCannotFail(cfg, steps[..|steps|-1]);
    }
  }

  // ---------------------------------------------------------------------
  // The exact condition for monotone service.

  predicate Good(cfg: Config) { cfg.persist && !cfg.writesFail }

  ghost predicate AlwaysMonotone(cfg: Config) {
    forall steps: seq<Action> :: Exec(cfg, steps).Some? ==> Monotone(Exec(cfg, steps).value.log)
  }

  /** Publishing, and a save that leaves the state file alone. */
  lemma UnsavedSave(cfg: Config, run: seq<Action>, s: State) returns (longer: seq<Action>)
    requires !Good(cfg) && Exec(cfg, run) == Some(s) && s.phase.Transformed?
    ensures Exec(cfg, longer) == Some(s.(phase := Replaced, payload := s.phase.out))
  {
    var save := if cfg.persist then SaveFails else SkipSave;
    Extend(cfg, run, s, Publish);
    longer := run + [Publish] + [save];
    Extend(cfg, run + [Publish], s.(phase := Published, payload := s.phase.out), save);
  }

  lemma ReleaseAndServe(cfg: Config, run: seq<Action>, s: State) returns (longer: seq<Action>)
    requires Exec(cfg, run) == Some(s) && s.phase.Replaced?
    ensures Exec(cfg, longer) == Some(s.(phase := Idle, log := s.log + [s.payload]))
  {
    Extend(cfg, run, s, Release);
    longer := run + [Release] + [Serve];
    Extend(cfg, run + [Release], s.(phase := Idle), Serve);
  }

  /** From a transformed scrape to a served payload that no state file holds. */
  lemma UnsavedPublish(cfg: Config, run: seq<Action>, s: State) returns (longer: seq<Action>)
    requires !Good(cfg) && Exec(cfg, run) == Some(s) && s.phase.Transformed?
    ensures Exec(cfg, longer) == Some(s.(phase := Idle, payload := s.phase.out, log := s.log + [s.phase.out]))
  {
    var saved := UnsavedSave(cfg, run, s);
    longer := ReleaseAndServe(cfg, saved, s.(phase := Replaced, payload := s.phase.out));
  }

  /** A whole scrape of one series whose save leaves the state file alone, then a serve. */
  lemma UnsavedScrape(cfg: Config, run: seq<Action>, s: State, k: string) returns (longer: seq<Action>, t: State)
    requires !Good(cfg) && Exec(cfg, run) == Some(s) && s.phase.Idle? && k in s.up.cur
    ensures Exec(cfg, longer) == Some(t) && t.phase.Idle? && t.up == s.up && t.file == s.file
    ensures t.log == s.log + [map[k := Step(CellAt(s.img.mem, k), s.up.cur[k]).Served()]]
  {
    var taken, u := FetchAndTakeOne(cfg, run, s, k);
    longer := UnsavedPublish(cfg, taken, u);
    t := u.(phase := Idle, payload := u.phase.out, log := u.log + [u.phase.out]);
  }

  lemma FetchAndTakeOne(cfg: Config, run: seq<Action>, s: State, k: string) returns (longer: seq<Action>, t: State)
    requires Exec(cfg, run) == Some(s) && s.phase.Idle? && k in s.up.cur
    ensures Exec(cfg, longer) == Some(t) && t.up == s.up && t.file == s.file && t.log == s.log
    ensures t.phase == Transformed(map[k := Step(CellAt(s.img.mem, k), s.up.cur[k]).Served()])
  {
    var body := ReadBody(s.up, {k});
    var img := Take(s.img, body);
    OneServed(s, k);
    Extend(cfg, run, s, Fetch({k}));
    Extend(cfg, run + [Fetch({k})], s.(phase := Fetched(body)), TakeIn);
    longer := run + [Fetch({k})] + [TakeIn];
    t := s.(phase := Transformed(Render(img, body)), img := img);
  }

  lemma OneServed(s: State, k: string)
    requires k in s.up.cur
    ensures var body := ReadBody(s.up, {k});
            Render(Take(s.img, body), body) == map[k := Step(CellAt(s.img.mem, k), s.up.cur[k]).Served()]
  {
    ObserveAllIsStep(s.img.mem, Raw(ReadBody(s.up, {k})), k);
  }

  /** A series is served at 5 and then lost in a crash; the exporter comes back to a
      restarted upstream that has counted 1. */
  lemma LosingRunDrops(cfg: Config)
    requires !Good(cfg)
    ensures !AlwaysMonotone(cfg)
  {
    var k := "k";
    var r1, s1 := FirstLife(cfg, k);
    var r2, s2 := SecondLife(cfg, r1, s1, k);
    var r3, s3 := UnsavedScrape(cfg, r2, s2, k);
    assert CellAt(BLANK, k) == START;
    assert s3.log == [map[k := 5.0], map[k := 1.0]];
    assert !NotBelow(s3.log[0], s3.log[1]);
  }

  lemma FirstLife(cfg: Config, k: string) returns (run: seq<Action>, s: State)
    requires !Good(cfg)
    ensures Exec(cfg, run) == Some(s) && s.phase.Idle? && s.file == Missing && s.up == Upstream(0, map[], map[k := 5.0])
    ensures s.log == [map[k := 5.0]]
  {
    Extend(cfg, [], INIT, Load);
    var s1 := INIT.(phase := Idle, img := EMPTY_IMAGE, payload := map[]);
    Extend(cfg, [] + [Load], s1, Count(k, 5.0));
    var s2 := s1.(up := Upstream(0, map[], map[k := 5.0]));
    assert Exec(cfg, [] + [Load] + [Count(k, 5.0)]) == Some(s2);
    run, s := UnsavedScrape(cfg, [] + [Load] + [Count(k, 5.0)], s2, k);
  }

  lemma SecondLife(cfg: Config, run: seq<Action>, s: State, k: string) returns (longer: seq<Action>, t: State)
    requires Exec(cfg, run) == Some(s) && s.phase.Idle? && s.file == Missing
             && s.up == Upstream(0, map[], map[k := 5.0])
    ensures Exec(cfg, longer) == Some(t) && t.phase.Idle? && t.up.cur == map[k := 1.0] && t.img == EMPTY_IMAGE
            && t.log == s.log
  {
    Extend(cfg, run, s, Crash(false, false));
    var s1, r1 := Do(cfg, s, Crash(false, false)).value, run + [Crash(false, false)];
    Extend(cfg, r1, s1, UpstreamRestart);
    var s2, r2 := s1.(up := Restarted(s1.up)), r1 + [UpstreamRestart];
    Extend(cfg, r2, s2, Load);
    var s3, r3 := s2.(phase := Idle, img := EMPTY_IMAGE, payload := map[]), r2 + [Load];
    assert s2.file == Missing;
    Extend(cfg, r3, s3, Count(k, 1.0));
    longer, t := r3 + [Count(k, 1.0)], s3.(up := s3.up.(cur := map[k := 1.0]));
  }

  /** Served values never decrease on any run, over any interleaving of counting, upstream
      restarts, scrapes, crashes and reloads, exactly when a state file is configured and
      writing it does not fail. */
  lemma ServedNeverDecreases(cfg: Config)
    ensures AlwaysMonotone(cfg) <==> cfg.persist && !cfg.writesFail
  {
    if Good(cfg) {
      forall steps: seq<Action> | Exec(cfg, steps).Some? ensures Monotone(Exec(cfg, steps).value.log) {
        SavesCannotFail(cfg, steps);
        FindsItSaved(cfg, steps);
        MonotoneIfCrashesFindItSaved(cfg, steps);
      }
    } else {
      LosingRunDrops(cfg);
    }
  }
}
