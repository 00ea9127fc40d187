/** One restart-safe counter: folding the last raw value into a baseline when the
    upstream starts again from zero. */
module Counter {
  import opened Decimal

  datatype Cell = Cell(base: real, last: Option<real>) {
    predicate Valid() { base >= 0.0 && (last.Some? ==> last.value >= 0.0) }
    function Last(): real { if last.Some? then last.value else 0.0 }
    /** What is served for the series: everything before the last reset plus the current raw value. */
    function Served(): real { base + Last() }
  }

  const START := Cell(0.0, None)

  /** A drop means a restart. */
  predicate Reset(c: Cell, raw: real) { c.last.Some? && raw < c.last.value }

  function Step(c: Cell, raw: real): (r: Cell)
    ensures c.Valid() && raw >= 0.0 ==> r.Valid() && c.Served() <= r.Served() && r.last == Some(raw)
    ensures c.last == Some(raw) ==> r == c
  {
    Cell(if Reset(c, raw) then c.base + c.last.value else c.base, Some(raw))
  }

  function Run(c: Cell, raws: seq<real>): Cell {
    if raws == [] then c else Step(Run(c, raws[..|raws|-1]), raws[|raws|-1])
  }

  predicate NonNegative(raws: seq<real>) { forall i :: 0 <= i < |raws| ==> raws[i] >= 0.0 }

  lemma {:induction false} RunMonotone(c: Cell, raws: seq<real>, n: nat)
    requires c.Valid() && NonNegative(raws) && n <= |raws|
    ensures Run(c, raws).Valid() && Run(c, raws[..n]).Valid()
    ensures Run(c, raws[..n]).Served() <= Run(c, raws).Served()
    decreases |raws|
  {
    if n == |raws| {
      assert raws[..n] == raws;
      if n > 0 { RunMonotone(c, raws[..n - 1], n - 1); }
    } else {
      var front := raws[..|raws| - 1];
      assert front[..n] == raws[..n];
      RunMonotone(c, front, n);
    }
  }

  // ---------------------------------------------------------------------
  // Against the truth: scrapes of a counter that lives through upstream restarts.

  /** One scrape: the upstream incarnation, all earlier incarnations' final values, and the raw value read. */
  datatype Scrape = Scrape(epoch: nat, past: real, raw: real) {
    function Truth(): real { past + raw }
  }

  /** The upstream only counts up within an incarnation and keeps nothing across one. */
  predicate Follows(a: Scrape, b: Scrape) {
    && a.epoch <= b.epoch
    && (a.epoch == b.epoch ==> a.past == b.past && a.raw <= b.raw)
    && (a.epoch < b.epoch ==> a.past + a.raw <= b.past)
  }

  predicate WellFormed(s: seq<Scrape>) {
    && (forall i :: 0 <= i < |s| ==> s[i].past >= 0.0 && s[i].raw >= 0.0)
    && (forall i, j :: 0 <= i < |s| && 0 <= j < |s| && j == i + 1 ==> Follows(s[i], s[j]))
  }

  function Raws(s: seq<Scrape>): (r: seq<real>)
    ensures |r| == |s| && forall i :: 0 <= i < |s| ==> r[i] == s[i].raw
  {
    seq(|s|, i requires 0 <= i < |s| => s[i].raw)
  }

  function Track(s: seq<Scrape>): Cell { Run(START, Raws(s)) }

  /** What the served value stops accounting for between two scrapes: counts the earlier
      incarnations made after their last scrape, and all of an incarnation whose end went unnoticed. */
  function Loss(a: Scrape, b: Scrape): real {
    if b.raw < a.raw then b.past - a.past - a.raw else b.past - a.past
  }

  function TotalLoss(s: seq<Scrape>): real {
    if s == [] then 0.0
    else if |s| == 1 then s[0].past
    else TotalLoss(s[..|s|-1]) + Loss(s[|s|-2], s[|s|-1])
  }

  lemma TrackAppend(s: seq<Scrape>, a: Scrape)
    requires WellFormed(s) && a.past >= 0.0 && a.raw >= 0.0 && (s != [] ==> Follows(s[|s|-1], a))
    ensures WellFormed(s + [a]) && Track(s + [a]) == Step(Track(s), a.raw)
  {
    var t := s + [a];
    assert Raws(t)[..|s|] == Raws(s);
    forall i, j | 0 <= i < j < |t| && j == i + 1 ensures Follows(t[i], t[j]) {
      if j < |s| { assert Follows(s[i], s[j]); }
    }
  }

  /** Exact accounting: true total = served value + loss, at every scrape. */
  lemma {:induction false} Accounting(s: seq<Scrape>)
    requires WellFormed(s) && s != []
    ensures Track(s).last == Some(s[|s|-1].raw) && Track(s).Valid()
    ensures s[|s|-1].Truth() == Track(s).Served() + TotalLoss(s)
  {
    var front, b := s[..|s|-1], s[|s|-1];
    assert Raws(s)[..|s|-1] == Raws(front);
    if |s| == 1 {
      assert front == [] && Track(front) == START;
    } else {
      var a := s[|s|-2];
      assert front[|front|-1] == a;
      Accounting(front);
      assert Follows(a, b);
    }
  }

  predicate CleanStep(a: Scrape, b: Scrape) {
    || a.epoch == b.epoch
    || (b.raw < a.raw && b.past == a.past + a.raw)
    || b.past == a.past
  }

  /** Every incarnation was scraped at its final value and next scraped below it, or counted nothing. */
  predicate Clean(s: seq<Scrape>) {
    && (s != [] ==> s[0].past == 0.0)
    && (forall i, j :: 0 <= i < |s| && 0 <= j < |s| && j == i + 1 ==> CleanStep(s[i], s[j]))
  }

  lemma {:induction false} LossFreeIffClean(s: seq<Scrape>)
    requires WellFormed(s)
    ensures TotalLoss(s) >= 0.0
    ensures TotalLoss(s) == 0.0 <==> Clean(s)
  {
    if |s| <= 1 {
    } else {
      var front, a, b := s[..|s|-1], s[|s|-2], s[|s|-1];
      LossFreeIffClean(front);
      assert Follows(a, b);
      assert Loss(a, b) >= 0.0 && (Loss(a, b) == 0.0 <==> CleanStep(a, b));
      assert forall i :: 0 <= i < |front| ==> front[i] == s[i];
      if Clean(front) && CleanStep(a, b) { assert Clean(s); }
      if Clean(s) {
        assert Clean(front) by {
          forall i, j | 0 <= i < j < |front| && j == i + 1 ensures CleanStep(front[i], front[j]) {
            assert CleanStep(s[i], s[j]);
          }
        }
        assert CleanStep(s[|s|-2], s[|s|-1]);
      }
    }
  }

  /** The served value never exceeds the true total over all incarnations, and equals it
      exactly on clean scrape histories. */
  lemma ServedIsAtMostTruth(s: seq<Scrape>)
    requires WellFormed(s) && s != []
    ensures Track(s).Served() <= s[|s|-1].Truth()
    ensures Track(s).Served() == s[|s|-1].Truth() <==> Clean(s)
  {
    Accounting(s);
    LossFreeIffClean(s);
  }

  // ---------------------------------------------------------------------
  // Two cumulative buckets side by side.

  /** At each scrape the lower bucket counts no more than the higher one. */
  predicate Ordered(lo: seq<real>, hi: seq<real>) {
    |lo| == |hi| && forall i :: 0 <= i < |lo| ==> 0.0 <= lo[i] <= hi[i]
  }

  /** Whenever the lower bucket sees a reset, so does the higher one. */
  predicate ResetsTogether(a: Cell, lo: seq<real>, b: Cell, hi: seq<real>)
    requires |lo| == |hi|
  {
    forall i :: 0 <= i < |lo| && Reset(Run(a, lo[..i]), lo[i]) ==> Reset(Run(b, hi[..i]), hi[i])
  }

  predicate SideBySide(a: Cell, b: Cell) { a.Valid() && b.Valid() && a.Last() <= b.Last() }

  predicate OrderedCells(a: Cell, b: Cell) { SideBySide(a, b) && a.base <= b.base }

  lemma OrderedStep(a: Cell, x: real, b: Cell, y: real)
    requires OrderedCells(a, b) && 0.0 <= x <= y && (Reset(a, x) ==> Reset(b, y))
    ensures OrderedCells(Step(a, x), Step(b, y)) && Step(a, x).Served() <= Step(b, y).Served()
  {}

  lemma TogetherPrefix(a: Cell, lo: seq<real>, b: Cell, hi: seq<real>)
    requires |lo| == |hi| > 0 && ResetsTogether(a, lo, b, hi)
    ensures ResetsTogether(a, lo[..|lo|-1], b, hi[..|hi|-1])
    ensures Reset(Run(a, lo[..|lo|-1]), lo[|lo|-1]) ==> Reset(Run(b, hi[..|hi|-1]), hi[|hi|-1])
  {
    var n := |lo| - 1;
    forall i | 0 <= i < n && Reset(Run(a, lo[..n][..i]), lo[..n][i]) ensures Reset(Run(b, hi[..n][..i]), hi[..n][i]) {
      assert lo[..n][..i] == lo[..i] && hi[..n][..i] == hi[..i];
    }
  }

  /** Ordered baselines stay ordered, and so do the served buckets. */
  lemma {:induction false} BucketsStayOrdered(a: Cell, lo: seq<real>, b: Cell, hi: seq<real>)
    requires OrderedCells(a, b) && Ordered(lo, hi) && ResetsTogether(a, lo, b, hi)
    ensures OrderedCells(Run(a, lo), Run(b, hi)) && Run(a, lo).Served() <= Run(b, hi).Served()
    decreases |lo|
  {
    if lo == [] {
    } else {
      var n := |lo| - 1;
      TogetherPrefix(a, lo, b, hi);
      BucketsStayOrdered(a, lo[..n], b, hi[..n]);
      OrderedStep(Run(a, lo[..n]), lo[n], Run(b, hi[..n]), hi[n]);
    }
  }

  /** Every later run in which the two buckets reset together serves them in order. */
  ghost predicate SafeFromHere(a: Cell, b: Cell) {
    forall lo: seq<real>, hi: seq<real> :: Ordered(lo, hi) && ResetsTogether(a, lo, b, hi) ==>
      Run(a, lo).Served() <= Run(b, hi).Served()
  }

  /** The order of the baselines is exactly what future order depends on. */
  lemma SafeIffBaselinesOrdered(a: Cell, b: Cell)
    requires SideBySide(a, b)
    ensures SafeFromHere(a, b) <==> a.base <= b.base
  {
    if a.base <= b.base {
      forall lo: seq<real>, hi: seq<real> | Ordered(lo, hi) && ResetsTogether(a, lo, b, hi)
        ensures Run(a, lo).Served() <= Run(b, hi).Served()
      {
        BucketsStayOrdered(a, lo, b, hi);
      }
    } else {
      // One more scrape in which both buckets have reached the same count.
      var x := b.Last();
      OneScrape(a, x);
      OneScrape(b, x);
      forall i | 0 <= i < |[x]| ensures !Reset(Run(a, [x][..i]), [x][i]) { assert [x][..i] == []; }
      assert Ordered([x], [x]) && ResetsTogether(a, [x], b, [x]);
      assert Run(a, [x]).Served() > Run(b, [x]).Served();
    }
  }

  lemma OneScrape(c: Cell, x: real)
    ensures Run(c, []) == c && Run(c, [x]) == Step(c, x)
  {
    assert [x][..0] == [];
  }

  /** Detecting resets bucket by bucket is only as good as the detections agreeing: from equal
      baselines, one scrape leaves the future safe unless the lower bucket alone saw a reset. */
  lemma MixedResetIsTheProblem(a: Cell, x: real, b: Cell, y: real)
    requires SideBySide(a, b) && a.base == b.base && 0.0 <= x <= y
    ensures SafeFromHere(Step(a, x), Step(b, y)) <==> (Reset(a, x) ==> Reset(b, y))
  {
    SafeIffBaselinesOrdered(Step(a, x), Step(b, y));
  }

  /** A run that shows it: both buckets at 10, then 9 and 11 after a restart. */
  lemma MixedResetExample()
    ensures Ordered([10.0, 9.0], [10.0, 11.0])
    ensures Run(START, [10.0, 9.0]).Served() == 19.0 && Run(START, [10.0, 11.0]).Served() == 11.0
  {
    TwoScrapes(10.0, 9.0);
    TwoScrapes(10.0, 11.0);
  }

  lemma TwoScrapes(x: real, y: real)
    ensures Run(START, [x, y]) == Step(Step(START, x), y)
  {
    var raws := [x, y];
    assert raws[..|raws|-1] == [x];
    OneScrape(START, x);
  }

  // ---------------------------------------------------------------------
  // Two cells that should serve the same: the "+Inf" bucket and the count of one histogram.

  /** They serve the same values at every later scrape that lists both with the same raw value. */
  ghost predicate ServeAlike(a: Cell, b: Cell) {
    forall raws: seq<real> :: NonNegative(raws) && raws != [] ==> Run(a, raws).Served() == Run(b, raws).Served()
  }

  predicate Alike(a: Cell, b: Cell) { a.base == b.base && a.Last() == b.Last() }

  lemma {:induction false} AlikeRunsMeet(a: Cell, b: Cell, raws: seq<real>)
    requires a.Valid() && b.Valid() && Alike(a, b) && NonNegative(raws) && raws != []
    ensures Run(a, raws) == Run(b, raws)
  {
    var front := raws[..|raws|-1];
    if front != [] { AlikeRunsMeet(a, b, front); }
  }

  /** What the future depends on is just the baseline and the last raw value. */
  lemma ServeAlikeIffAlike(a: Cell, b: Cell)
    requires a.Valid() && b.Valid()
    ensures ServeAlike(a, b) <==> Alike(a, b)
  {
    if Alike(a, b) {
      forall raws: seq<real> | NonNegative(raws) && raws != [] ensures Run(a, raws).Served() == Run(b, raws).Served() {
        AlikeRunsMeet(a, b, raws);
      }
    }
    if ServeAlike(a, b) {
      ServeOne(a, b, a.Last() + b.Last());
      ServeOne(a, b, a.Last());
      ServeOne(a, b, b.Last());
    }
  }

  lemma ServeOne(a: Cell, b: Cell, x: real)
    requires ServeAlike(a, b) && x >= 0.0
    ensures Step(a, x).Served() == Step(b, x).Served()
  {
    OneScrape(a, x);
    OneScrape(b, x);
    assert NonNegative([x]);
  }

  /** A transform that stops after one of the two lines is harmless exactly when that line
      repeats the value already seen. */
  lemma LoneTakeHarmlessIff(c: Cell, x: real)
    requires c.Valid() && x >= 0.0
    ensures ServeAlike(Step(c, x), c) <==> x == c.Last()
  {
    ServeAlikeIffAlike(Step(c, x), c);
  }

  /** Raw 10 for both, then 5 taken in for one of them only, then 12 for both: 22 against 12. */
  lemma LoneTakeExample()
    ensures Run(START, [10.0, 5.0, 12.0]).Served() == 22.0 && Run(START, [10.0, 12.0]).Served() == 12.0
  {
    TwoScrapes(10.0, 12.0);
    TwoScrapes(10.0, 5.0);
    var raws := [10.0, 5.0, 12.0];
    assert raws[..|raws|-1] == [10.0, 5.0];
  }
}
