/** A line break the server does not escape: what the exporter makes of a histogram line whose
    alias holds a carriage return followed by the start of a count line. */
module Breaks {
  import opened Decimal
  import opened LedgerHistory
  import opened Exposition
  import opened Metrics
  import Exporter

  lemma CutAtReturn(a: string, b: string)
    requires OneLine(a) && OneLine(b) && b != ""
    ensures SplitLines(a + "\r" + b + "\n") == [a, b]
  {
    var s := a + "\r" + (b + "\n");
    assert a + "\r" + b + "\n" == s;
    FirstBreakOf(a, '\r', b + "\n");
    assert s[..|a|] == a && s[|a| + 1..] == b + "\n";
    assert s[|a| + 1] == b[0] && !IsBreak(b[0]);
    LastLine(b);
  }

  lemma LastLine(b: string)
    requires OneLine(b)
    ensures SplitLines(b + "\n") == [b]
  {
    SplitUndoesJoin([b]);
    assert Join([b]) == b + "\n" + Join([]);
  }

  /** Escaping leaves the carriage return and the head after it as they are. */
  lemma EscapedAround(p: string, middle: string, q: string)
    requires Plain(middle)
    ensures EscapeLabel(p + middle + q) == EscapeLabel(p) + middle + EscapeLabel(q)
  {
    EscapeIsReplace(p);
    EscapeIsReplace(q);
    EscapeIsReplace(p + middle + q);
    ReplaceConcat(p + middle, q);
    ReplaceConcat(p, middle);
    ReplacePlain(middle);
  }

  lemma {:induction false} EscapeKeepsBrace(v: string)
    ensures '}' in Replace(v) <==> '}' in v
  {
    if v == "" {
    } else {
      EscapeKeepsBrace(v[1..]);
      assert v == [v[0]] + v[1..];
    }
  }

  lemma PlainConcat(a: string, b: string)
    requires Plain(a) && Plain(b)
    ensures Plain(a + b)
  {}

  lemma CountHeadIsPlain()
    ensures Plain("\r" + Exporter.Head(Exporter.HistCount))
  {
    FamilyIsPlain();
    PlainConcat(Exporter.HIST, "_count{");
    PlainConcat("\r", Exporter.Head(Exporter.HistCount));
  }

  lemma FamilyIsPlain()
    ensures Plain(Exporter.HIST)
  {
    PlainConcat("smolllm_attempt_first", "_output_seconds");
  }

  /** The rest of the label block after the alias's value. */
  function AfterAlias(w: WaitKey): string { "\"" + "," + Block(WaitLabels(w)[1..]) }

  lemma AliasFirst(w: WaitKey)
    ensures Block(WaitLabels(w)) == "alias" + "=\"" + EscapeLabel(w.alias) + AfterAlias(w)
  {
    var ls := WaitLabels(w);
    assert Block(ls) == Pair(ls[0]) + "," + Block(ls[1..]);
    Regrouped("alias" + "=\"" + EscapeLabel(w.alias), "\"", ",", Block(ls[1..]));
  }

  lemma Regrouped(a: string, b: string, c: string, d: string)
    ensures a + b + c + d == a + (b + c + d)
  {}

  /** What stands before the carriage return, and the labels the tail of the line seems to carry. */
  function CutOff(p: string): string { Exporter.Head(Exporter.HistBucket) + ("alias" + "=\"" + EscapeLabel(p)) }

  function StrayLabels(w: WaitKey, q: string, bound: string): string { EscapeLabel(q) + AfterAlias(w) + Le(bound) }

  lemma LineFalls(head: string, x: string, p: string, middle: string, q: string, more: string, number: string)
    ensures SampleLine(head, x + (p + ("\r" + middle) + q) + more, number)
            == head + (x + p) + "\r" + SampleLine(middle, q + more, number)
  {}

  lemma AliasInBlock(w: WaitKey, p: string, middle: string, q: string)
    requires w.alias == p + ("\r" + middle) + q && Plain("\r" + middle)
    ensures Block(WaitLabels(w))
            == "alias" + "=\"" + (EscapeLabel(p) + ("\r" + middle) + EscapeLabel(q)) + AfterAlias(w)
  {
    AliasFirst(w);
    EscapedAround(p, "\r" + middle, q);
  }

  /** The bucket line of such an alias, seen as two lines. */
  lemma BucketLineFalls(w: WaitKey, p: string, q: string, bound: string, n: nat)
    requires w.alias == p + ("\r" + Exporter.Head(Exporter.HistCount)) + q
    ensures BucketLine(Block(WaitLabels(w)), bound, n)
            == CutOff(p) + "\r" + SampleLine(Exporter.Head(Exporter.HistCount), StrayLabels(w, q, bound), Digits(n))
  {
    CountHeadIsPlain();
    FallsAt(Exporter.Head(Exporter.HistBucket), w, p, Exporter.Head(Exporter.HistCount), q, Le(bound), Digits(n));
  }

  lemma FallsAt(head: string, w: WaitKey, p: string, middle: string, q: string, le: string, number: string)
    requires w.alias == p + ("\r" + middle) + q && Plain("\r" + middle)
    ensures SampleLine(head, Block(WaitLabels(w)) + le, number)
            == head + ("alias" + "=\"" + EscapeLabel(p)) + "\r"
                + SampleLine(middle, EscapeLabel(q) + AfterAlias(w) + le, number)
  {
    AliasInBlock(w, p, middle, q);
    Appended("alias" + "=\"" + (EscapeLabel(p) + ("\r" + middle) + EscapeLabel(q)), AfterAlias(w), le);
    Appended(EscapeLabel(q), AfterAlias(w), le);
    LineFalls(head, "alias" + "=\"", EscapeLabel(p), middle, EscapeLabel(q), AfterAlias(w) + le, number);
  }

  lemma Appended(a: string, b: string, c: string)
    ensures a + b + c == a + (b + c)
  {}

  lemma Unmatched(head: string, s: string)
    requires '}' !in s
    ensures MatchLine(head, head + s) == NoMatch
  {
    assert (head + s)[|head|..] == s;
  }

  lemma CutOffIsNoSample(p: string)
    requires '}' !in p
    ensures Exporter.Read(CutOff(p)) == Exporter.Other
  {
    EscapeIsReplace(p);
    EscapeKeepsBrace(p);
    var s := "alias" + "=\"" + EscapeLabel(p);
    assert '}' !in s;
    Unmatched(Exporter.Head(Exporter.HistBucket), s);
    ReadHead(Exporter.HistBucket, s);
  }

  lemma CutOffIsOneLine(p: string)
    requires OneLineButNewline(p)
    ensures OneLine(CutOff(p))
  {
    HeadIsOneLine(Exporter.HistBucket);
    EscapedIsOneLine(p);
    PrintableIsOneLine("alias");
    OneLineConcat("alias", "=\"");
    OneLineConcat("alias" + "=\"", EscapeLabel(p));
    OneLineConcat(Exporter.Head(Exporter.HistBucket), "alias" + "=\"" + EscapeLabel(p));
  }

  lemma StrayIsOneLine(w: WaitKey, q: string, bound: string, n: nat)
    requires OneLineButNewline(q) && OneLineButNewline(w.provider) && OneLineButNewline(w.model) && OneLine(bound)
    ensures OneLine(SampleLine(Exporter.Head(Exporter.HistCount), StrayLabels(w, q, bound), Digits(n)))
  {
    DigitsAreOneLine(n);
    EscapedIsOneLine(q);
    RestIsOneLine(w);
    LeIsOneLine(bound);
    OneLineConcat(EscapeLabel(q), AfterAlias(w));
    OneLineConcat(EscapeLabel(q) + AfterAlias(w), Le(bound));
    SampleIsOneLine(Exporter.HistCount, StrayLabels(w, q, bound), Digits(n));
  }

  lemma LeIsOneLine(bound: string)
    requires OneLine(bound)
    ensures OneLine(Le(bound))
  {
    OneLineConcat(",le=\"", bound);
    OneLineConcat(",le=\"" + bound, "\"");
  }

  lemma RestIsOneLine(w: WaitKey)
    requires OneLineButNewline(w.provider) && OneLineButNewline(w.model)
    ensures OneLine(AfterAlias(w))
  {
    WaitNames(w);
    PrintableIsOneLine(BoolLabel(w.streaming));
    BlockIsOneLine(WaitLabels(w)[1..]);
    OneLineConcat("\"", ",");
    OneLineConcat("\"" + ",", Block(WaitLabels(w)[1..]));
  }

  /** At an alias holding a carriage return and the start of a count line, each bucket line is
      read as a count of the value of that bucket, for labels no "+Inf" bucket is listed for. */
  lemma StrayCount(w: WaitKey, p: string, q: string, bound: string, n: nat)
    requires w.alias == p + ("\r" + Exporter.Head(Exporter.HistCount)) + q
    requires OneLineButNewline(p) && OneLineButNewline(q) && '}' !in p
    requires OneLineButNewline(w.provider) && OneLineButNewline(w.model) && OneLine(bound)
    ensures var l, lines := StrayLabels(w, q, bound), SplitLines(BucketLine(Block(WaitLabels(w)), bound, n) + "\n");
            && |lines| == 2 && Exporter.Read(lines[0]) == Exporter.Other
            && Exporter.Read(lines[1]) == Exporter.Sample(Exporter.HistCount, l, n as real)
            && Exporter.RawsOf(lines, CountKey(l)) == [n as real] && Exporter.RawsOf(lines, InfKey(l)) == []
  {
    var l := StrayLabels(w, q, bound);
    var stray := SampleLine(Exporter.Head(Exporter.HistCount), l, Digits(n));
    BucketLineFalls(w, p, q, bound, n);
    CutOffIsOneLine(p);
    StrayIsOneLine(w, q, bound, n);
    CutAtReturn(CutOff(p), stray);
    CutOffIsNoSample(p);
    PrintedSampleReadsBack(Exporter.HistCount, l, n);
    RawsConcat([CutOff(p)], [stray], CountKey(l));
    RawsConcat([CutOff(p)], [stray], InfKey(l));
    assert [CutOff(p)] + [stray] == [CutOff(p), stray];
    RawsOne(CutOff(p), CountKey(l));
    RawsOne(CutOff(p), InfKey(l));
    CountLineRaws(l, n, l);
  }

  /** So the two served values part, whatever the memory: the count has one and the bucket none. */
  lemma StrayCountIsServedAlone(m: Exporter.Memory, w: WaitKey, p: string, q: string, bound: string, n: nat)
    requires w.alias == p + ("\r" + Exporter.Head(Exporter.HistCount)) + q
    requires OneLineButNewline(p) && OneLineButNewline(q) && '}' !in p
    requires OneLineButNewline(w.provider) && OneLineButNewline(w.model) && OneLine(bound)
    ensures var l, lines := StrayLabels(w, q, bound), SplitLines(BucketLine(Block(WaitLabels(w)), bound, n) + "\n");
            var out := Exporter.Transform(m, lines).1;
            |Exporter.ValuesOf(out, CountKey(l))| == 1 && Exporter.ValuesOf(out, InfKey(l)) == []
  {
    var l, lines := StrayLabels(w, q, bound), SplitLines(BucketLine(Block(WaitLabels(w)), bound, n) + "\n");
    StrayCount(w, p, q, bound, n);
    Exporter.TransformServesCells(m, lines, CountKey(l));
    Exporter.TransformServesCells(m, lines, InfKey(l));
  }
}
