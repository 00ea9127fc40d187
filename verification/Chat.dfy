/** Streaming and blocking renderings of one upstream turn. */
module Chat {
  import opened Json
  import opened Decimal
  import opened Credit
  import Calls = MessageExtras

  type Fields = map<string, Json>

  datatype Usage = Usage(input: int, output: int, cacheRead: int, cacheWrite: int, readReported: bool,
                         writeReported: bool)

  datatype Chunk = Chunk(content: string, reasoning: string)

  /** Everything the client library reports about one turn. */
  datatype Turn = Turn(model: string, chunks: seq<Chunk>, error: Option<string>, calls: seq<Fields>,
                       finishReason: string, usage: Usage) {
    /** The blocking call returns the concatenation of what the stream delivers. */
    function Text(): string { Contents(chunks) }
    function Reasoning(): string { Reasonings(chunks) }
  }

  function Contents(cs: seq<Chunk>): string {
    if cs == [] then "" else Contents(cs[..|cs|-1]) + cs[|cs|-1].content
  }

  function Reasonings(cs: seq<Chunk>): string {
    if cs == [] then "" else Reasonings(cs[..|cs|-1]) + cs[|cs|-1].reasoning
  }

  // ---------------------------------------------------------------------
  // Shared pieces

  datatype CompletionUsage = CompletionUsage(
    prompt: int, completion: int, total: int, cachedTokens: Option<int>, cacheCreation: Option<int>,
    credit: CreditUsage)

  function UsageFor(u: Usage, credit: CreditUsage): CompletionUsage {
    CompletionUsage(u.input, u.output, u.input + u.output,
                    if u.readReported then Some(u.cacheRead) else None,
                    if u.writeReported then Some(u.cacheWrite) else None,
                    credit)
  }

  function FinishReasonForTurn(reason: string, toolCalls: nat): string {
    if toolCalls > 0 then "tool_calls" else if reason == "" then "stop" else reason
  }

  // ---------------------------------------------------------------------
  // Blocking

  datatype Message = Message(content: Option<string>, reasoning: string, calls: seq<Fields>)

  datatype Completion = Completion(model: string, message: Message, finish: string, usage: CompletionUsage)

  datatype Reply = Completed(c: Completion) | UpstreamError(message: string, credit: CreditUsage)

  function NullableContent(text: string, toolCalls: nat): Option<string> {
    if text != "" || toolCalls == 0 then Some(text) else None
  }

  function BlockingCompletion(t: Turn, requestedModel: string, credit: CreditUsage): Completion {
    Completion(if t.model != "" then t.model else requestedModel,
               Message(NullableContent(t.Text(), |t.calls|), t.Reasoning(), t.calls),
               FinishReasonForTurn(t.finishReason, |t.calls|),
               UsageFor(t.usage, credit))
  }

  /** The usage object a client reads, field by field. */
  predicate UsageSays(c: CompletionUsage, u: Usage, credit: CreditUsage) {
    && c.prompt == u.input && c.completion == u.output && c.total == u.input + u.output
    && (if u.readReported then c.cachedTokens == Some(u.cacheRead) else c.cachedTokens == None)
    && (if u.writeReported then c.cacheCreation == Some(u.cacheWrite) else c.cacheCreation == None)
    && c.credit == credit
  }

  /** The provider's reason, but for a turn with tool calls and for an absent reason. */
  predicate ReasonSays(finish: string, t: Turn) {
    && (t.calls != [] ==> finish == "tool_calls")
    && (t.calls == [] && t.finishReason != "" ==> finish == t.finishReason)
    && (t.calls == [] && t.finishReason == "" ==> finish == "stop")
  }

  /** The blocking answer, field by field. */
  predicate AnswerSays(c: Completion, t: Turn, requestedModel: string, credit: CreditUsage) {
    && (t.model != "" ==> c.model == t.model) && (t.model == "" ==> c.model == requestedModel)
    && (c.message.content.None? <==> t.Text() == "" && t.calls != [])
    && (c.message.content.Some? ==> c.message.content.value == t.Text())
    && c.message.reasoning == t.Reasoning() && c.message.calls == t.calls
    && ReasonSays(c.finish, t) && UsageSays(c.usage, t.usage, credit)
  }

  method ChatBlocking(t: Turn, requestedModel: string, billing: CreditTally, drawn: string) returns (r: Reply)
    requires billing.Valid() && drawn != ""
    modifies billing`id
    ensures billing.Valid() && billing.id == (if old(billing.id) == "" then drawn else old(billing.id))
    ensures r == if t.error.Some? then UpstreamError(t.error.value, Report(billing.events, billing.id))
                 else Completed(BlockingCompletion(t, requestedModel, Report(billing.events, billing.id)))
    ensures r.Completed? ==> AnswerSays(r.c, t, requestedModel, Report(billing.events, billing.id))
  {
    var credit := billing.Apply(drawn);
    if t.error.Some? { return UpstreamError(t.error.value, credit); }
    var content: Option<string> := None;
    if t.Text() != "" || |t.calls| == 0 { content := Some(t.Text()); }
    r := Completed(Completion(if t.model != "" then t.model else requestedModel,
                              Message(content, t.Reasoning(), t.calls),
                              FinishReasonForTurn(t.finishReason, |t.calls|),
                              UsageFor(t.usage, credit)));
  }

  // ---------------------------------------------------------------------
  // Streaming

  datatype Delta = Delta(role: string, content: string, reasoning: string, calls: seq<Fields>)

  const NO_DELTA := Delta("", "", "", [])

  /** The parts of a frame that differ from one to the next; id, creation time and model are shared. */
  datatype Frame =
    | Choice(delta: Delta, finish: Option<string>, error: Option<string>)
    | UsageOnly(usage: CompletionUsage)
    | Done

  const ROLE_FRAME := Choice(Delta("assistant", "", "", []), None, None)

  function TextFrame(c: Chunk): Frame { Choice(Delta("", c.content, c.reasoning, []), None, None) }

  predicate Silent(c: Chunk) { c.content == "" && c.reasoning == "" }

  function TextFrames(cs: seq<Chunk>): (fs: seq<Frame>) {
    if cs == [] then []
    else
      var last := cs[|cs|-1];
      TextFrames(cs[..|cs|-1]) + if Silent(last) then [] else [TextFrame(last)]
  }

  function UsageFrames(wantUsage: bool, usage: CompletionUsage): seq<Frame> {
    if wantUsage then [UsageOnly(usage)] else []
  }

  function ToolFrames(calls: seq<Fields>): seq<Frame> {
    if |calls| > 0 then [Choice(Delta("", "", "", Calls.DeltaFields(calls)), None, None)] else []
  }

  function Verdict(t: Turn): seq<Frame> {
    if t.error.Some? then [Choice(NO_DELTA, Some("error"), t.error)]
    else ToolFrames(t.calls) + [Choice(NO_DELTA, Some(FinishReasonForTurn(t.finishReason, |t.calls|)), None)]
  }

  function Ending(t: Turn, wantUsage: bool, usage: CompletionUsage): seq<Frame> {
    Verdict(t) + UsageFrames(wantUsage, usage) + [Done]
  }

  /** A cancellation seen by the n-th turn of the event loop, for n up to and including the
      turn on which the closed channel could have been seen instead. */
  predicate Cancelled(t: Turn, cancelAt: Option<nat>) { cancelAt.Some? && cancelAt.value <= |t.chunks| }

  function StreamFrames(t: Turn, wantUsage: bool, usage: CompletionUsage, cancelAt: Option<nat>): seq<Frame> {
    if Cancelled(t, cancelAt) then [ROLE_FRAME] + TextFrames(t.chunks[..cancelAt.value])
    else [ROLE_FRAME] + TextFrames(t.chunks) + Ending(t, wantUsage, usage)
  }

  /** One frame of a stream, field by field, at its place among `n` frames. */
  predicate FrameSays(f: Frame, i: nat, n: nat, t: Turn, wantUsage: bool, credit: CreditUsage, cut: bool) {
    match f
    case Choice(d, finish, error) =>
      && (d.role != "" ==> i == 0 && d == Delta("assistant", "", "", []))
      && (d.calls != [] ==> t.error.None? && !cut && |d.calls| == |t.calls|
                            && forall j :: 0 <= j < |t.calls| ==> d.calls[j] == t.calls[j]["index" := Num(j as real)])
      && (finish.Some? ==> !cut && d == Delta("", "", "", []) && error == t.error
                           && (t.error.Some? ==> finish.value == "error")
                           && (t.error.None? ==> ReasonSays(finish.value, t)))
      && (error.Some? ==> finish.Some?)
    case UsageOnly(usage) => wantUsage && !cut && i + 2 == n && UsageSays(usage, t.usage, credit)
    case Done => !cut && i + 1 == n
  }

  predicate FramesSay(fs: seq<Frame>, t: Turn, wantUsage: bool, credit: CreditUsage, cut: bool) {
    && fs != [] && fs[0] == Choice(Delta("assistant", "", "", []), None, None)
    && (forall i :: 0 <= i < |fs| ==> FrameSays(fs[i], i, |fs|, t, wantUsage, credit, cut))
    && (!cut ==> |fs| >= 2 && fs[|fs|-1] == Done && (wantUsage ==> |fs| >= 3 && fs[|fs|-2].UsageOnly?))
  }

  lemma {:induction false} TextFramesArePlain(cs: seq<Chunk>)
    ensures forall f :: f in TextFrames(cs) ==>
              f.Choice? && f.finish.None? && f.error.None? && f.delta.role == "" && f.delta.calls == []
  {
    if cs == [] {
    } else {
      TextFramesArePlain(cs[..|cs|-1]);
    }
  }

  /** What one more chunk adds to the text, the reasoning and the frames. */
  lemma ChunkByChunk(cs: seq<Chunk>, c: Chunk)
    ensures Contents(cs + [c]) == Contents(cs) + c.content && Reasonings(cs + [c]) == Reasonings(cs) + c.reasoning
    ensures TextFrames(cs + [c])
            == TextFrames(cs) + if c.content == "" && c.reasoning == "" then []
                                else [Choice(Delta("", c.content, c.reasoning, []), None, None)]
  {
    assert (cs + [c])[..|cs|] == cs;
  }

  /** Every frame of a stream says what the turn and the tally say. */
  lemma StreamSays(t: Turn, wantUsage: bool, credit: CreditUsage, cancelAt: Option<nat>)
    ensures FramesSay(StreamFrames(t, wantUsage, UsageFor(t.usage, credit), cancelAt), t, wantUsage, credit,
                      cancelAt.Some? && cancelAt.value <= |t.chunks|)
  {
    var usage, cut := UsageFor(t.usage, credit), Cancelled(t, cancelAt);
    var text := TextFrames(if cut then t.chunks[..cancelAt.value] else t.chunks);
    var fs := StreamFrames(t, wantUsage, usage, cancelAt);
    TextFramesArePlain(if cut then t.chunks[..cancelAt.value] else t.chunks);
    var ending := if cut then [] else Ending(t, wantUsage, usage);
    assert fs == [ROLE_FRAME] + text + ending;
    forall i | 0 <= i < |fs| ensures FrameSays(fs[i], i, |fs|, t, wantUsage, credit, cut) {
      FrameAt(ROLE_FRAME, text, ending, i);
      if i > |text| { EndingSays(t, wantUsage, credit, i - 1 - |text|, i, |fs|); }
    }
  }

  lemma FrameAt(role: Frame, text: seq<Frame>, ending: seq<Frame>, i: nat)
    requires i < 1 + |text| + |ending|
    ensures ([role] + text + ending)[i] ==
            if i == 0 then role else if i <= |text| then text[i - 1] else ending[i - 1 - |text|]
    ensures 0 < i <= |text| ==> ([role] + text + ending)[i] in text
  {}

  lemma EndingSays(t: Turn, wantUsage: bool, credit: CreditUsage, j: nat, i: nat, n: nat)
    requires j < |Ending(t, wantUsage, UsageFor(t.usage, credit))| && i > 0
    requires n - i == |Ending(t, wantUsage, UsageFor(t.usage, credit))| - j
    ensures FrameSays(Ending(t, wantUsage, UsageFor(t.usage, credit))[j], i, n, t, wantUsage, credit, false)
  {}

  /** The event loop; `cancelAt` says on which turn, if any, the select picks the cancellation. */
  method StreamLoop(t: Turn, cancelAt: Option<nat>) returns (frames: seq<Frame>, cancelled: bool)
    ensures cancelled == Cancelled(t, cancelAt)
    ensures frames == TextFrames(if cancelled then t.chunks[..cancelAt.value] else t.chunks)
  {
    frames := [];
    var i := 0;
    while true
      invariant 0 <= i <= |t.chunks|
      invariant Cancelled(t, cancelAt) ==> i <= cancelAt.value
      invariant frames == TextFrames(t.chunks[..i])
      decreases |t.chunks| - i
    {
      if cancelAt == Some(i) { return frames, true; }
      if i == |t.chunks| { break; }
      var chunk := t.chunks[i];
      assert t.chunks[..i + 1][..i] == t.chunks[..i];
      i := i + 1;
      if chunk.content == "" && chunk.reasoning == "" { continue; }
      frames := frames + [TextFrame(chunk)];
    }
    assert t.chunks[..i] == t.chunks;
    cancelled := false;
  }

  method WriteVerdict(t: Turn) returns (frames: seq<Frame>)
    ensures frames == Verdict(t)
  {
    if t.error.Some? { return [Choice(NO_DELTA, Some("error"), t.error)]; }
    frames := [];
    if |t.calls| > 0 {
      var deltas: seq<Fields> := [];
      for k := 0 to |t.calls|
        invariant deltas == Calls.DeltaFields(t.calls)[..k]
      {
        deltas := deltas + [Calls.WithIndex(t.calls[k], k)];
      }
      assert deltas == Calls.DeltaFields(t.calls);
      frames := [Choice(Delta("", "", "", deltas), None, None)];
    }
    frames := frames + [Choice(NO_DELTA, Some(FinishReasonForTurn(t.finishReason, |t.calls|)), None)];
  }

  /** How a streaming request ends: refused before the first frame, or a stream. */
  datatype StreamReply = NoStreaming | Refused(message: string, credit: CreditUsage) | Streamed(frames: seq<Frame>)

  method ChatStream(flushes: bool, startError: Option<string>, t: Turn, wantUsage: bool, billing: CreditTally,
                    drawn: string, cancelAt: Option<nat>)
    returns (r: StreamReply)
    requires billing.Valid() && drawn != ""
    modifies billing`id
    ensures billing.Valid()
    ensures billing.id == if flushes && (startError.Some? || (!Cancelled(t, cancelAt) && wantUsage))
            && old(billing.id) == ""
                          then drawn else old(billing.id)
    ensures r == if !flushes then NoStreaming
                 else if startError.Some? then Refused(startError.value, Report(billing.events, billing.id))
                 else Streamed(StreamFrames(t, wantUsage,
                                            UsageFor(t.usage, Report(billing.events, billing.id)), cancelAt))
    ensures r.Streamed? ==>
              FramesSay(r.frames, t, wantUsage, Report(billing.events, billing.id), Cancelled(t, cancelAt))
  {
    if !flushes { return NoStreaming; }
    if startError.Some? {
      var credit := billing.Apply(drawn);
      return Refused(startError.value, credit);
    }
    var frames := WriteStream(t, wantUsage, billing, drawn, cancelAt);
    StreamSays(t, wantUsage, Report(billing.events, billing.id), cancelAt);
    r := Streamed(frames);
  }

  method WriteStream(t: Turn, wantUsage: bool, billing: CreditTally, drawn: string, cancelAt: Option<nat>)
    returns (frames: seq<Frame>)
    requires billing.Valid() && drawn != ""
    modifies billing`id
    ensures billing.Valid()
    ensures billing.id
            == if !Cancelled(t, cancelAt) && wantUsage && old(billing.id) == "" then drawn else old(billing.id)
    ensures frames == StreamFrames(t, wantUsage, UsageFor(t.usage, Report(billing.events, billing.id)), cancelAt)
  {
    var text, cancelled := StreamLoop(t, cancelAt);
    frames := [ROLE_FRAME] + text;
    if cancelled { return; }
    var verdict := WriteVerdict(t);
    var usage := WriteUsageFrame(wantUsage, t.usage, billing, drawn);
    frames := frames + (verdict + usage + [Done]);
  }

  method WriteUsageFrame(wantUsage: bool, u: Usage, billing: CreditTally, drawn: string) returns (fs: seq<Frame>)
    requires billing.Valid() && drawn != ""
    modifies billing`id
    ensures billing.Valid()
    ensures billing.id == if wantUsage && old(billing.id) == "" then drawn else old(billing.id)
    ensures fs == UsageFrames(wantUsage, UsageFor(u, Report(billing.events, billing.id)))
  {
    if !wantUsage { return []; }
    var credit := billing.Apply(drawn);
    fs := [UsageOnly(UsageFor(u, credit))];
  }

  // ---------------------------------------------------------------------
  // The grammar of a stream, as a client-side automaton.

  datatype Phase = Start | Text | Tooled | Finished | Billed | Ended | Violation

  function Advance(p: Phase, f: Frame, wantUsage: bool): Phase {
    match (p, f)
    case (Start, Choice(_, _, _)) => if f == ROLE_FRAME then Text else Violation
    case (Text, Choice(d, fin, err)) =>
      if fin.None? && err.None? && d.role == "" && d.calls == [] && (d.content != "" || d.reasoning != "") then Text
      else if fin.None? && err.None? && d.role == "" && d.calls != [] && d.content == "" && d.reasoning == ""
      then Tooled
      else if fin.Some? && d == NO_DELTA && (err.Some? ==> fin == Some("error")) then Finished
      else Violation
    case (Tooled, Choice(d, fin, err)) =>
      if fin == Some("tool_calls") && err.None? && d == NO_DELTA then Finished else Violation
    case (Finished, UsageOnly(_)) => if wantUsage then Billed else Violation
    case (Finished, Done) => if wantUsage then Violation else Ended
    case (Billed, Done) => Ended
    case _ => Violation
  }

  function Drive(p: Phase, fs: seq<Frame>, wantUsage: bool): Phase {
    if fs == [] then p else Advance(Drive(p, fs[..|fs|-1], wantUsage), fs[|fs|-1], wantUsage)
  }

  lemma {:induction false} DriveAppend(p: Phase, a: seq<Frame>, b: seq<Frame>, wantUsage: bool)
    ensures Drive(p, a + b, wantUsage) == Drive(Drive(p, a, wantUsage), b, wantUsage)
    decreases |b|
  {
    if b == [] {
      assert a + b == a;
    } else {
      assert (a + b)[..|a + b| - 1] == a + b[..|b| - 1];
      DriveAppend(p, a, b[..|b| - 1], wantUsage);
    }
  }

  lemma {:induction false} TextKeepsPhase(cs: seq<Chunk>, wantUsage: bool)
    ensures Drive(Text, TextFrames(cs), wantUsage) == Text
  {
    if cs == [] {
    } else {
      var front, last := cs[..|cs|-1], cs[|cs|-1];
      TextKeepsPhase(front, wantUsage);
      DriveAppend(Text, TextFrames(front), if Silent(last) then [] else [TextFrame(last)], wantUsage);
      assert [TextFrame(last)][..0] == [];
    }
  }

  lemma EndingEnds(t: Turn, wantUsage: bool, usage: CompletionUsage)
    ensures Drive(Text, Ending(t, wantUsage, usage), wantUsage) == Ended
  {
    var bill := UsageFrames(wantUsage, usage);
    VerdictFinishes(t, wantUsage);
    DriveAppend(Text, Verdict(t) + bill, [Done], wantUsage);
    DriveAppend(Text, Verdict(t), bill, wantUsage);
    DriveOne(Finished, UsageOnly(usage), wantUsage);
    DriveOne(if wantUsage then Billed else Finished, Done, wantUsage);
  }

  lemma DriveOne(p: Phase, f: Frame, wantUsage: bool)
    ensures Drive(p, [f], wantUsage) == Advance(p, f, wantUsage)
  {
    assert [f][..0] == [];
  }

  lemma VerdictFinishes(t: Turn, wantUsage: bool)
    ensures Drive(Text, Verdict(t), wantUsage) == Finished
  {
    if t.error.Some? {
      DriveOne(Text, Verdict(t)[0], wantUsage);
    } else {
      var fin := Choice(NO_DELTA, Some(FinishReasonForTurn(t.finishReason, |t.calls|)), None);
      DriveAppend(Text, ToolFrames(t.calls), [fin], wantUsage);
      DriveOne(if |t.calls| > 0 then Tooled else Text, fin, wantUsage);
      if |t.calls| > 0 {
        assert Calls.DeltaFields(t.calls) != [];
        DriveOne(Text, ToolFrames(t.calls)[0], wantUsage);
      }
    }
  }

  /** Every run obeys the grammar: a cancelled one stops among its text frames, any other
      ends with one finish or error frame, one usage frame iff asked for, and one [DONE]. */
  lemma StreamGrammar(t: Turn, wantUsage: bool, usage: CompletionUsage, cancelAt: Option<nat>)
    ensures Drive(Start, StreamFrames(t, wantUsage, usage, cancelAt), wantUsage)
            == if Cancelled(t, cancelAt) then Text else Ended
  {
    var cs := if Cancelled(t, cancelAt) then t.chunks[..cancelAt.value] else t.chunks;
    assert [ROLE_FRAME][..0] == [];
    assert Drive(Start, [ROLE_FRAME], wantUsage) == Text;
    DriveAppend(Start, [ROLE_FRAME], TextFrames(cs), wantUsage);
    TextKeepsPhase(cs, wantUsage);
    if !Cancelled(t, cancelAt) {
      DriveAppend(Start, [ROLE_FRAME] + TextFrames(cs), Ending(t, wantUsage, usage), wantUsage);
      EndingEnds(t, wantUsage, usage);
    }
  }

  // ---------------------------------------------------------------------
  // A client putting the stream back together.

  /** Tool calls are filed under the index they carry, which is then removed. */
  datatype Client = Client(content: string, reasoning: string, slots: map<int, Fields>, finish: Option<string>,
                           usage: Option<CompletionUsage>)

  const FRESH := Client("", "", map[], None, None)

  function FileCalls(slots: map<int, Fields>, ds: seq<Fields>): map<int, Fields> {
    if ds == [] then slots
    else
      var rest, d := FileCalls(slots, ds[..|ds|-1]), ds[|ds|-1];
      if Calls.INDEX in d && d[Calls.INDEX].Num?
      then rest[d[Calls.INDEX].n.Floor := d - {Calls.INDEX}]
      else rest
  }

  function Receive(c: Client, f: Frame): Client {
    match f
    case Choice(d, fin, _) =>
      Client(c.content + d.content, c.reasoning + d.reasoning, FileCalls(c.slots, d.calls),
             if fin.Some? then fin else c.finish, c.usage)
    case UsageOnly(u) => c.(usage := Some(u))
    case Done => c
  }

  function ReceiveAll(c: Client, fs: seq<Frame>): Client {
    if fs == [] then c else Receive(ReceiveAll(c, fs[..|fs|-1]), fs[|fs|-1])
  }

  function OrderedCalls(slots: map<int, Fields>): seq<Fields> {
    seq(|slots|, i requires 0 <= i => if i in slots then slots[i] else map[])
  }

  function AsMessage(c: Client): Message {
    var calls := OrderedCalls(c.slots);
    Message(NullableContent(c.content, |calls|), c.reasoning, calls)
  }

  lemma {:induction false} ReceiveAppend(c: Client, a: seq<Frame>, b: seq<Frame>)
    ensures ReceiveAll(c, a + b) == ReceiveAll(ReceiveAll(c, a), b)
    decreases |b|
  {
    if b == [] {
      assert a + b == a;
    } else {
      assert (a + b)[..|a + b| - 1] == a + b[..|b| - 1];
      ReceiveAppend(c, a, b[..|b| - 1]);
    }
  }

  lemma {:induction false} ReceiveText(cs: seq<Chunk>)
    ensures ReceiveAll(FRESH, [ROLE_FRAME] + TextFrames(cs)) == Client(Contents(cs), Reasonings(cs), map[], None, None)
  {
    if cs == [] {
      assert [ROLE_FRAME] + TextFrames(cs) == [ROLE_FRAME];
      assert [ROLE_FRAME][..0] == [];
    } else {
      var front, last := cs[..|cs|-1], cs[|cs|-1];
      ReceiveText(front);
      var before := [ROLE_FRAME] + TextFrames(front);
      if Silent(last) {
        assert [ROLE_FRAME] + TextFrames(cs) == before;
      } else {
        assert [ROLE_FRAME] + TextFrames(cs) == before + [TextFrame(last)];
        assert (before + [TextFrame(last)])[..|before|] == before;
      }
    }
  }

  /** Filing one more delta under its position. */
  lemma FileNext(slots: map<int, Fields>, ds: seq<Fields>, call: Fields, i: nat)
    ensures FileCalls(slots, ds + [Calls.WithIndex(call, i)]) == FileCalls(slots, ds)[i := call - {Calls.INDEX}]
  {
    var d := Calls.WithIndex(call, i);
    assert (ds + [d])[..|ds|] == ds;
    assert d - {Calls.INDEX} == call - {Calls.INDEX};
  }

  ghost predicate Filed(slots: map<int, Fields>, calls: seq<Fields>, n: nat)
    requires n <= |calls|
  {
    && |slots| == n && (forall i: int :: i in slots <==> 0 <= i < n)
    && forall i :: 0 <= i < n ==> slots[i] == calls[i] - {Calls.INDEX}
  }

  lemma FiledNext(slots: map<int, Fields>, calls: seq<Fields>, n: nat)
    requires n < |calls| && Filed(slots, calls, n)
    ensures Filed(slots[n := calls[n] - {Calls.INDEX}], calls, n + 1)
  {}

  lemma {:induction false} FileDeltas(calls: seq<Fields>, n: nat)
    requires n <= |calls|
    ensures Filed(FileCalls(map[], Calls.DeltaFields(calls)[..n]), calls, n)
  {
    var ds := Calls.DeltaFields(calls);
    if n == 0 {
      assert ds[..n] == [];
    } else {
      FileDeltas(calls, n - 1);
      assert ds[..n] == ds[..n - 1] + [Calls.WithIndex(calls[n - 1], n - 1)];
      FileNext(map[], ds[..n - 1], calls[n - 1], n - 1);
      FiledNext(FileCalls(map[], ds[..n - 1]), calls, n - 1);
    }
  }

  lemma OrderDeltas(calls: seq<Fields>)
    ensures var got := OrderedCalls(FileCalls(map[], Calls.DeltaFields(calls)));
            |got| == |calls| && forall i :: 0 <= i < |calls| ==> got[i] == calls[i] - {Calls.INDEX}
  {
    FileDeltas(calls, |calls|);
    assert Calls.DeltaFields(calls)[..|calls|] == Calls.DeltaFields(calls);
  }

  lemma ReceiveTools(c: Client, calls: seq<Fields>)
    ensures ReceiveAll(c, ToolFrames(calls)) == c.(slots := FileCalls(c.slots, Calls.DeltaFields(calls)))
  {
    if |calls| > 0 {
      One(c, ToolFrames(calls)[0]);
      assert c.content + "" == c.content && c.reasoning + "" == c.reasoning;
    } else {
      assert Calls.DeltaFields(calls) == [];
    }
  }

  lemma ReceiveFinish(c: Client, reason: string)
    ensures ReceiveAll(c, [Choice(NO_DELTA, Some(reason), None)]) == c.(finish := Some(reason))
  {
    One(c, Choice(NO_DELTA, Some(reason), None));
    assert c.content + "" == c.content && c.reasoning + "" == c.reasoning;
  }

  lemma ReceiveBill(c: Client, wantUsage: bool, usage: CompletionUsage)
    ensures ReceiveAll(c, UsageFrames(wantUsage, usage) + [Done]) == if wantUsage then c.(usage := Some(usage)) else c
  {
    ReceiveAppend(c, UsageFrames(wantUsage, usage), [Done]);
    if wantUsage { One(c, UsageOnly(usage)); }
    One(ReceiveAll(c, UsageFrames(wantUsage, usage)), Done);
  }

  /** What the ending of an error-free turn adds to what a client holds. */
  lemma ReceiveEnding(c: Client, t: Turn, wantUsage: bool, usage: CompletionUsage)
    requires t.error.None?
    ensures ReceiveAll(c, Ending(t, wantUsage, usage))
            == Client(c.content, c.reasoning, FileCalls(c.slots, Calls.DeltaFields(t.calls)),
                      Some(FinishReasonForTurn(t.finishReason, |t.calls|)), if wantUsage then Some(usage) else c.usage)
  {
    var tools, reason := ToolFrames(t.calls), FinishReasonForTurn(t.finishReason, |t.calls|);
    var fin, bill := [Choice(NO_DELTA, Some(reason), None)], UsageFrames(wantUsage, usage) + [Done];
    assert Ending(t, wantUsage, usage) == tools + fin + bill;
    ReceiveAppend(c, tools + fin, bill);
    ReceiveAppend(c, tools, fin);
    ReceiveTools(c, t.calls);
    ReceiveFinish(ReceiveAll(c, tools), reason);
    ReceiveBill(ReceiveAll(c, tools + fin), wantUsage, usage);
  }

  /** What an attentive client ends up with after an uncancelled, error-free stream. */
  lemma WholeStream(t: Turn, wantUsage: bool, usage: CompletionUsage)
    requires t.error.None?
    ensures ReceiveAll(FRESH, StreamFrames(t, wantUsage, usage, None))
            == Client(t.Text(), t.Reasoning(), FileCalls(map[], Calls.DeltaFields(t.calls)),
                      Some(FinishReasonForTurn(t.finishReason, |t.calls|)), if wantUsage then Some(usage) else None)
  {
    var lead := [ROLE_FRAME] + TextFrames(t.chunks);
    ReceiveText(t.chunks);
    ReceiveAppend(FRESH, lead, Ending(t, wantUsage, usage));
    ReceiveEnding(ReceiveAll(FRESH, lead), t, wantUsage, usage);
  }

  lemma One(c: Client, f: Frame)
    ensures ReceiveAll(c, [f]) == Receive(c, f)
  {
    assert [f][..0] == [];
  }

  /** The streamed turn, put back together, is the blocking answer: message (null content
      included), finish reason and usage. This holds exactly when no tool call brings an
      "index" key of its own for the streamed position to overwrite. */
  lemma StreamEqualsBlocking(t: Turn, wantUsage: bool, requestedModel: string, credit: CreditUsage)
    requires t.error.None?
    ensures var c := ReceiveAll(FRESH, StreamFrames(t, wantUsage, UsageFor(t.usage, credit), None));
            var b := BlockingCompletion(t, requestedModel, credit);
            && (AsMessage(c) == b.message <==> forall call :: call in t.calls ==> Calls.INDEX !in call)
            && AsMessage(c).content == b.message.content
            && AsMessage(c).reasoning == b.message.reasoning
            && c.finish == Some(b.finish)
            && (c.usage == if wantUsage then Some(b.usage) else None)
            && (b.message.content.None? <==> t.Text() == "" && t.calls != [])
            && b.finish != "" && (b.finish == "tool_calls" <==> t.calls != [] || t.finishReason == "tool_calls")
  {
    WholeStream(t, wantUsage, UsageFor(t.usage, credit));
    ReassembledCalls(t.calls);
  }

  /** The calls come back as they were exactly when none had an "index". */
  lemma ReassembledCalls(calls: seq<Fields>)
    ensures var got := OrderedCalls(FileCalls(map[], Calls.DeltaFields(calls)));
            |got| == |calls| && (got == calls <==> forall call :: call in calls ==> Calls.INDEX !in call)
  {
    OrderDeltas(calls);
    var got := OrderedCalls(FileCalls(map[], Calls.DeltaFields(calls)));
    if forall call :: call in calls ==> Calls.INDEX !in call {
      forall i | 0 <= i < |calls| ensures got[i] == calls[i] { assert calls[i] in calls; }
    } else {
      var call :| call in calls && Calls.INDEX in call;
      var i :| 0 <= i < |calls| && calls[i] == call;
      assert Calls.INDEX !in got[i];
    }
  }

  predicate Prefix(a: string, b: string) { |a| <= |b| && a == b[..|a|] }

  lemma {:induction false} ContentsPrefix(cs: seq<Chunk>, n: nat)
    requires n <= |cs|
    ensures Prefix(Contents(cs[..n]), Contents(cs)) && Prefix(Reasonings(cs[..n]), Reasonings(cs))
    decreases |cs| - n
  {
    if n < |cs| {
      ContentsPrefix(cs, n + 1);
      assert cs[..n + 1][..n] == cs[..n];
    } else {
      assert cs[..n] == cs;
    }
  }

  lemma {:induction false} EndingAddsNoText(c: Client, t: Turn, wantUsage: bool, usage: CompletionUsage)
    ensures var d := ReceiveAll(c, Ending(t, wantUsage, usage)); d.content == c.content && d.reasoning == c.reasoning
  {
    NoText(c, Ending(t, wantUsage, usage));
  }

  lemma {:induction false} NoText(c: Client, fs: seq<Frame>)
    requires forall f :: f in fs && f.Choice? ==> f.delta.content == "" && f.delta.reasoning == ""
    ensures ReceiveAll(c, fs).content == c.content && ReceiveAll(c, fs).reasoning == c.reasoning
  {
    if fs == [] {
    } else {
      NoText(c, fs[..|fs|-1]);
    }
  }

  /** On every run, cancelled or failed at any point, what was delivered is a prefix of what
      the upstream said, and all of it unless cancelled. */
  lemma DeliveredIsPrefix(t: Turn, wantUsage: bool, usage: CompletionUsage, cancelAt: Option<nat>)
    ensures var c := ReceiveAll(FRESH, StreamFrames(t, wantUsage, usage, cancelAt));
            && Prefix(c.content, t.Text()) && Prefix(c.reasoning, t.Reasoning())
            && (!Cancelled(t, cancelAt) ==> c.content == t.Text() && c.reasoning == t.Reasoning())
  {
    if Cancelled(t, cancelAt) {
      ReceiveText(t.chunks[..cancelAt.value]);
      ContentsPrefix(t.chunks, cancelAt.value);
    } else {
      ReceiveText(t.chunks);
      ReceiveAppend(FRESH, [ROLE_FRAME] + TextFrames(t.chunks), Ending(t, wantUsage, usage));
      EndingAddsNoText(ReceiveAll(FRESH, [ROLE_FRAME] + TextFrames(t.chunks)), t, wantUsage, usage);
    }
  }
}
