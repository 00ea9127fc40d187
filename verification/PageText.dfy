/** The printed page in the format the source writes it: family names, labels in order with their
    values, bucket bounds, and the account lines for the events that were recorded. */
module PageText {
  import opened Decimal
  import opened Exposition
  import opened LedgerHistory
  import opened Metrics
  import Ledger
  import LedgerReading
  import Exporter

  function Comma(pairs: seq<string>): string {
    if pairs == [] then "" else if |pairs| == 1 then pairs[0] else pairs[0] + "," + Comma(pairs[1..])
  }

  function Flag(b: bool): string { if b then "true" else "false" }

  // ---------------------------------------------------------------------
  // The ledger's lines

  /** name="value" for each label, in order. */
  function Pairs(ls: seq<Label>): (pairs: seq<string>)
    ensures |pairs| == |ls| && forall i :: 0 <= i < |ls| ==> pairs[i] == Named(ls[i].name, ls[i].value)
  {
    seq(|ls|, i requires 0 <= i < |ls| => Named(ls[i].name, ls[i].value))
  }

  lemma {:induction false} BlockIsComma(ls: seq<Label>)
    ensures Block(ls) == Comma(Pairs(ls))
  {
    BlockSays(ls);
    if |ls| <= 1 {
    } else {
      BlockIsComma(ls[1..]);
      assert Pairs(ls)[1..] == Pairs(ls[1..]);
    }
  }

  /** The labels of an attempt counter and of a histogram, in the source's order. */
  function AttemptNamed(k: AttemptKey): seq<Label> {
    [Label("alias", k.alias), Label("provider", k.provider), Label("model", k.model),
     Label("outcome", k.outcome), Label("phase", k.phase), Label("streaming", Flag(k.streaming))]
  }

  function WaitNamed(k: WaitKey): seq<Label> {
    [Label("alias", k.alias), Label("provider", k.provider), Label("model", k.model),
     Label("streaming", Flag(k.streaming))]
  }

  /** An attempt line: the six labels in the source's order, each with its own value, and the count. */
  lemma AttemptLineSays(k: AttemptKey, n: nat)
    ensures AttemptLine(k, n)
            == "smolllm_attempts_total" + "{" + (Comma(Pairs(AttemptNamed(k))) + "}" + (" " + Digits(n)))
  {
    BlockIsComma(AttemptLabels(k));
  }

  /** The text of a bound is a number, and it is the bound. */
  lemma BoundTextSpells(i: nat)
    requires i < 9
    ensures |BOUND_TEXT| == 9
    ensures var n := Parse(BOUND_TEXT[i]); n.Some? && n.value.Value() * 1000000000.0 == LedgerReading.EDGES[i] as real
  {
    if i == 0 { HalfSpelled(); } else { WholeSpelled(i); }
  }

  lemma HalfSpelled()
    ensures var n := Parse(BOUND_TEXT[0]); n.Some? && n.value.Value() == 0.5
  {
    var n := Numeral(false, "0", Some("5"), NoExp);
    assert n.Text() == "0.5";
    ParseText(n);
    assert n.Mantissa() == 5 by {
      assert "0" + "5" == "05";
      assert Val("05") == 5 by { assert "05"[..1] == "0"; assert "0"[..0] == ""; }
    }
  }

  lemma WholeSpelled(i: nat)
    requires 0 < i < 9
    ensures var n := Parse(BOUND_TEXT[i]);
            n.Some? && n.value.Value() * 1000000000.0 == LedgerReading.EDGES[i] as real
  {
    var t := BOUND_TEXT[i];
    var v := LedgerReading.EDGES[i] / 1000000000;
    var n := Numeral(false, t, None, NoExp);
    assert n.Text() == t;
    SmallNumber(t, i);
    ParseText(n);
  }

  lemma SmallNumber(t: string, i: nat)
    requires 0 < i < 9 && t == BOUND_TEXT[i]
    ensures t != "" && AllDigits(t) && t[0] != '0' && Val(t) * 1000000000 == LedgerReading.EDGES[i]
  {
    assert t[..0] == "";
    if |t| >= 2 { assert t[..2][..1] == t[..1] && t[..1][..0] == ""; }
    if |t| == 3 { assert t[..2] == [t[0], t[1]] && t[..1] == [t[0]]; }
  }

  /** A bucket line: the key's labels, the bound, and the cumulative count. */
  lemma BucketLineSays(s: Ledger.Sample, fmt: FloatText, i: nat)
    requires |s.cumulative| == 10 && i < 9
    ensures var labels := Comma(Pairs(WaitNamed(s.key)));
            && |WaitLines(s, fmt)| == 12
            && WaitLines(s, fmt)[i]
               == "smolllm_attempt_first" + "_output_seconds" + "_bucket{"
                  + (labels + (",le=\"" + BOUND_TEXT[i] + "\"") + "}" + (" " + Digits(s.cumulative[i])))
  {
    BlockIsComma(WaitLabels(s.key));
    BucketLineAt(Block(WaitLabels(s.key)), s.cumulative, 9, i);
  }

  /** The last three lines of a histogram: everything, the total wait, and the number of waits. */
  lemma LastLinesSay(s: Ledger.Sample, fmt: FloatText)
    requires |s.cumulative| == 10
    ensures var labels := Comma(Pairs(WaitNamed(s.key)));
            var name := "smolllm_attempt_first" + "_output_seconds";
            && |WaitLines(s, fmt)| == 12
            && WaitLines(s, fmt)[9]
               == name + "_bucket{" + (labels + (",le=\"" + "+Inf" + "\"") + "}" + (" " + Digits(s.cumulative[9])))
            && WaitLines(s, fmt)[10] == name + "_sum{" + (labels + "}" + (" " + fmt(s.sum)))
            && WaitLines(s, fmt)[11] == name + "_count{" + (labels + "}" + (" " + Digits(s.count)))
  {
    BlockIsComma(WaitLabels(s.key));
    HistEnd(Block(WaitLabels(s.key)), s.cumulative, fmt(s.sum), s.count);
  }

  lemma HistEnd(labels: string, counts: seq<nat>, sumText: string, n: nat)
    requires |counts| == 10
    ensures var lines := HistLines(labels, counts, sumText, n);
            var name := "smolllm_attempt_first" + "_output_seconds";
            && |lines| == 12
            && lines[9] == name + "_bucket{" + (labels + (",le=\"" + "+Inf" + "\"") + "}" + (" " + Digits(counts[9])))
            && lines[10] == name + "_sum{" + (labels + "}" + (" " + sumText))
            && lines[11] == name + "_count{" + (labels + "}" + (" " + Digits(n)))
  {
    BucketLineAt(labels, counts, 9, 0);
    ThreeLast(BucketLines(labels, counts, 9), BucketLine(labels, "+Inf", counts[9]),
              SampleLine(Exporter.Head(Exporter.HistSum), labels, sumText),
              SampleLine(Exporter.Head(Exporter.HistCount), labels, Digits(n)));
  }

  lemma ThreeLast(a: seq<string>, x: string, y: string, z: string)
    requires |a| == 9
    ensures var all := a + [x, y, z]; |all| == 12 && all[9] == x && all[10] == y && all[11] == z
  {}

  /** The whole of the ledger's part of the page: the attempt header, one line per counter, the wait
      header if there is a histogram, and twelve lines per histogram, in the order of the views. */
  lemma PageSays(attempts: seq<(AttemptKey, nat)>, samples: seq<Ledger.Sample>, fmt: FloatText)
    requires Shaped(samples)
    ensures var page, counters := MetricsLines(attempts, samples, fmt), AttemptLines(attempts);
            var waits := AllWaitLines(samples, fmt);
            var skip := 2 + |attempts| + if samples == [] then 0 else 4;
            && |counters| == |attempts| && |waits| == 12 * |samples| && |page| == skip + |waits|
            && page[0] == ATTEMPT_HELP && page[1] == ATTEMPT_TYPE
            && (forall i :: 0 <= i < |counters| ==> page[2 + i] == counters[i])
            && (samples != [] ==>
                  && page[2 + |attempts|] == WAIT_HELP && page[3 + |attempts|] == WAIT_HELP_2
                  && page[4 + |attempts|] == WAIT_HELP_3 && page[5 + |attempts|] == WAIT_TYPE)
            && forall i :: 0 <= i < |waits| ==> page[skip + i] == waits[i]
  {
    OneLineEach(attempts);
    AllTwelve(samples, fmt);
    PageParts(ATTEMPT_HELP, ATTEMPT_TYPE, AttemptLines(attempts), WAIT_HELP, WAIT_HELP_2, WAIT_HELP_3, WAIT_TYPE,
              samples == [], AllWaitLines(samples, fmt));
  }

  /** The two TYPE lines, which tell a scraper what the families are. */
  lemma TypeLinesSay()
    ensures ATTEMPT_TYPE == "# TYPE " + "smolllm_attempts_total" + " counter"
    ensures WAIT_TYPE == "# TYPE " + ("smolllm_attempt_first" + "_output_seconds") + " histogram"
  {
    AttemptTypeText();
    WaitTypeText();
  }

  lemma AttemptTypeText()
    ensures ATTEMPT_TYPE == "# TYPE " + "smolllm_attempts_total" + " counter"
  {}

  lemma WaitTypeText()
    ensures WAIT_TYPE == "# TYPE " + ("smolllm_attempt_first" + "_output_seconds") + " histogram"
  {}

  lemma PageParts(x: string, y: string, a: seq<string>, h1: string, h2: string, h3: string, h4: string, none: bool,
                  w: seq<string>)
    ensures var page := [x, y] + a + (if none then [] else [h1, h2, h3, h4]) + w;
            var skip := 2 + |a| + if none then 0 else 4;
            && |page| == skip + |w| && page[0] == x && page[1] == y
            && (forall i :: 0 <= i < |a| ==> page[2 + i] == a[i])
            && (!none ==> page[2 + |a|] == h1 && page[3 + |a|] == h2 && page[4 + |a|] == h3 && page[5 + |a|] == h4)
            && (forall i :: 0 <= i < |w| ==> page[skip + i] == w[i])
  {
    FourParts([x, y], a, if none then [] else [h1, h2, h3, h4], w);
  }

  lemma FourParts(a: seq<string>, b: seq<string>, c: seq<string>, d: seq<string>)
    ensures var all := a + b + c + d;
            && (forall i :: 0 <= i < |a| ==> all[i] == a[i])
            && (forall i :: 0 <= i < |b| ==> all[|a| + i] == b[i])
            && (forall i :: 0 <= i < |c| ==> all[|a| + |b| + i] == c[i])
            && (forall i :: 0 <= i < |d| ==> all[|a| + |b| + |c| + i] == d[i])
  {}
}
