# A verified model of smolllm-server's counting, billing and message handling

smolllm-server sits between OpenAI-style clients and LLM providers. It counts every
upstream attempt, prints the counts as Prometheus text, and a separate exporter scrapes
that text and keeps the counters alive across server restarts. It forwards client messages
through a typed codec that drops what it does not know, it adds up provider debits exactly,
and it renders the same upstream turn either as one answer or as a stream of frames.

This project models those parts in Dafny and proves what they keep. The client library
(`smolllm-go`) and the message codec enter only as arbitrary values, so every theorem holds
for anything they do.

Verify everything with `dafny verify dfyconfig.toml`.

## How the model is laid out

| module | models |
|---|---|
| `Json`, `MessageExtras`, `RequestFields` | JSON trees and the subset order; the two passes that put back what the codec dropped; request decoding and pass-through fields |
| `Decimal`, `Credit` | the number grammar of section 6 of RFC 8259 with exact values; the credit tally and its printed total |
| `Chat` | the blocking answer, the streaming event loop, the frame grammar as an automaton, and a client that reassembles a stream |
| `Counting`, `Ordering` | counting over histories and sums over maps; lexicographic order and sorting |
| `LedgerHistory`, `Ledger`, `LedgerReading` | what the ledger should say, as folds over the full history of events and clock readings; the ledger itself, a class with maps and mutable histograms; what its views say in terms of the events' own fields, with the source's constants written out |
| `Exposition`, `Metrics`, `PageText` | escaping, label blocks and sample lines with the exporter's patterns; the server's printer of the ledger; the printed lines in the source's own format |
| `AccountMetrics`, `AccountReading`, `AccountPage` | the account breaker's counters and their printer with the state gauge; the printed lines in terms of the recorded events and reports; how the exporter receives these lines |
| `Counter`, `Exporter`, `ServedText` | one restart-safe counter against the true total; the exporter's memory and its transformation of a body; what it makes of each line, in terms of its patterns and prefixes |
| `ExporterProtocol`, `ExporterHistory`, `ExporterSafety` | the exporter as a step system (upstream counting and restarts, fetch, lock, transform, publish, write, sync, rename, crash, reload, serve) against the true totals; its memory, file, payload and next step read off the list of steps alone; monotone service across crashes |
| `Pipeline`, `ServerPage`, `BucketOrder` | recorded histories to printed page to served values, over runs of scrapes, whole or stopped part-way, with server and exporter restarts; the order of served buckets |
| `Incarnations`, `Breaks` | served attempt counters against the events recorded in all lives of the server; what a name with an unescaped line break does to the histogram lines |

Objects the source updates in place are classes with ghost histories
(`MessageExtras.Message`, `RequestFields.ChatRequest`, `Credit.CreditTally`,
`Ledger.FirstOutputHist`, `Ledger.UsageLedger`, `AccountMetrics.AccountCounters`,
`Exporter.ExporterMemory`); their methods are tied to functions of the history, and the
lemmas are about those functions.

The specification functions follow the source's branches, so what they compute is said a
second time without them: `ExporterHistory` over the list of steps, `LedgerReading` and
`AccountReading` over the fields of the recorded events, `PageText` and `ServedText` over the
printed text, and `AcceptedIff`, `StreamSays`, `OwnedCallsOnTheWire`, `WireIsDetermined` and the
contract of `ForwardRequest` in the fields and keys of requests and answers, with the source's
constants, key names and formats written out.

## What turned out not to hold, and exactly when it does

- The comment at `scripts/smolllm_exporter.py:239-240` says per-bucket detection keeps
  cumulative buckets in order across a restart. It does not: scrapes `10, 10` then `9, 11`
  serve `19` below `11` (`Counter.MixedResetExample`). From equal baselines the order is
  safe from a scrape on exactly when the lower bucket does not see a reset that the higher
  one misses (`Counter.MixedResetIsTheProblem`), and it depends on nothing but the order of
  the baselines (`Counter.SafeIffBaselinesOrdered`).
  Carried to whole pages: `BucketOrder.BucketsServedInOrder`.
- A transform that stops after a `+Inf` line and before its `_count` line leaves the two cells
  apart: 10 for both, then 5 for the bucket alone, then 12 for both serves 22 against 12
  (`Counter.LoneTakeExample`). The two then serve alike for good exactly when the line taken
  in alone repeated the value already seen (`Counter.LoneTakeHarmlessIff`), so
  `Pipeline.InfEqualsCount` is about runs in which no transform stopped between the two lines.
- Without a state file, or when writing it fails, served values can drop.
  `ExporterSafety.ServedNeverDecreases` is an equivalence over configurations; the dropping
  run is built in `ExporterSafety.LosingRunDrops`. Run by run, what matters is only that
  each crash finds the last released scrape saved
  (`ExporterSafety.MonotoneIfCrashesFindItSaved`): failed saves that are made good before
  the next crash do no harm, and without a crash no state file is needed.
- Tool-call extras are lost when the codec decodes a different number of calls than the
  client sent and there was something to replay (`MessageExtras.ReplayNeedsEqualCounts`).
- The streamed position overwrites a call's own `index` key, so a reassembled stream equals
  the blocking message exactly when no call has one (`Chat.StreamEqualsBlocking`,
  `MessageExtras.StripUndoesDeltaIndex`).
- A clock that runs ahead and comes back prunes rows of the current window
  (`LedgerHistory.ClockGoingBackLosesRows`). `LedgerHistory.RetainedIsWindow` gives the exact
  condition on clock readings and event days: no reading after an event of the window was
  recorded had put the event's day before the cutoff.
- Non-`ok` attempts and failures are counted from two different fields of an event. The comment
  at `internal/ledger/ledger.go:204-205` says a first-output timeout also carries an error; if
  the library ever reported one without, the views would part at that one event
  (`LedgerHistory.SilentTimeoutSplitsTheViews`). They agree exactly when there is none
  (`LedgerHistory.FailureViewsAgree`).
- A label with a Python line break other than newline splits a printed line: a carriage
  return in a client's model name is enough (`Metrics.CarriageReturnBreaksThePage`;
  `Metrics.LinesSurviveTransport` is an equivalence). What the exporter reads in the pieces
  is then up to the name: if the start of a count line follows the carriage return, each bucket
  line is also read as a count that no `+Inf` bucket goes with (`Breaks.StrayCount`), and that
  count is served alone (`Breaks.StrayCountIsServedAlone`). So the theorems about served pages
  ask for names without such breaks.
- The comment at `scripts/smolllm_exporter.py:302-304` says a failed scrape serves the last
  good payload plus a down signal; the code at lines 305-312 replaces the payload, and the
  model follows the code. Likewise `_last_raw` is the last raw value, not the largest, and
  the server's third help line for waits mentions `smolllm_attempts_total`, so the exporter
  drops it (lines 216-220; `Metrics.WaitHelpLosesALine`).

## Model

| member | source | states |
|---|---|---|
| `ExporterSafety.ServedNeverDecreases` | scripts/smolllm_exporter.py:265-328 | over every interleaving of counting, upstream restarts, scrapes, failing fetches, failing transforms, crashes at any step of open, write, sync and rename, reloads and serves, no series served from a matched line ever goes down, if and only if a state file is configured and writing it does not fail |
| `ExporterSafety.MonotoneIfCrashesFindItSaved` | scripts/smolllm_exporter.py:265-328 | run by run, in every configuration and whichever saves fail: no served value goes down as long as each crash finds the last released scrape saved |
| `ExporterSafety.NothingServedBeforeDurable` | scripts/smolllm_exporter.py:274-297 | with a state file and no failed save in the run, every value ever served is at most what the file would restore, and the file is whole and synced |
| `ExporterSafety.SafeInvHolds` | scripts/smolllm_exporter.py:274-297 | on every such run everything ever served is within what survives: the state file's image, or memory while it runs ahead of the file |
| `ExporterSafety.LosingRunDrops` | scripts/smolllm_exporter.py:19-28 | without a durable state there is a concrete run (serve 5, crash, upstream restart, serve 1) that drops |
| `ExporterHistory.PayloadByHistory` | scripts/smolllm_exporter.py:265-315 | in every reachable state of every configuration the payload is the rendering of the last publish, or nothing if a failed fetch, a failed transform, a start or a crash came after it; told from the list of steps alone |
| `ExporterHistory.ServeByHistory` | scripts/smolllm_exporter.py:318-323 | a serve hands out exactly that payload, and nothing right after a failed fetch or a reported failure |
| `ExporterHistory.OnlyServesAreLogged` | scripts/smolllm_exporter.py:318-323 | no other step hands out anything |
| `ExporterHistory.StateByHistory` | scripts/smolllm_exporter.py:79-143 | memory stems from the readings taken in since the start, after those of the last rename before it; the state file holds the memory of the last rename and is whole and synced; a transform that raised keeps what it had taken in |
| `ExporterHistory.PossibleIff` | scripts/smolllm_exporter.py:265-328 | which step may come next depends on the exporter's own last step alone: one poll is fetch, transform, publish, write, sync, rename, release in this order, with its failures, and a serve is possible exactly while running and not between a transform and the end of its save |
| `ExporterHistory.UpstreamByHistory` | scripts/smolllm_exporter.py:10-19 | what a fetch sees is what was counted since the upstream last started, and the truth is everything ever counted |
| `ExporterProtocol.LoadDropsNegatives` | scripts/smolllm_exporter.py:97-112 | whatever a state file says, its non-negative entries are loaded as they are, the others are dropped, and every counter starts from a valid cell |
| `ExporterProtocol.LoadedIsFile` | scripts/smolllm_exporter.py:79-112 | loading a saved state restores every served value and the invariant; missing or unreadable state is an empty baseline |
| `ExporterProtocol.TruthInvHolds` | scripts/smolllm_exporter.py:189-199 | in every reachable state of every configuration, memory, state file and temporary file each hold the restart-safe run of scrapes that really happened |
| `ExporterProtocol.NeverOverCounts` | scripts/smolllm_exporter.py:189-199 | no served value ever exceeds what the server truly counted over all incarnations |
| `ExporterProtocol.ExactWhenClean` | scripts/smolllm_exporter.py:189-199 | a scrape serves exactly the true total if and only if every incarnation in the remembered history was scraped at its final value and next scraped below it, or counted nothing |
| `Counter.RunMonotone` | scripts/smolllm_exporter.py:189-199 | a restart-safe counter never goes down over any sequence of raw values |
| `Counter.Accounting` | scripts/smolllm_exporter.py:189-199 | true total = served value + loss at every scrape, the loss being what incarnations counted after their last scrape and all of those whose end went unnoticed |
| `Counter.LossFreeIffClean` | scripts/smolllm_exporter.py:192-197 | the loss is never negative, and zero exactly on clean scrape histories |
| `Counter.ServedIsAtMostTruth` | scripts/smolllm_exporter.py:189-199 | the served value is at most the true total, with equality exactly on clean histories |
| `Counter.BucketsStayOrdered` | scripts/smolllm_exporter.py:238-243 | two cumulative buckets stay ordered over any run in which a reset seen by the lower one is also seen by the higher one |
| `Counter.SafeIffBaselinesOrdered` | scripts/smolllm_exporter.py:238-243 | all such continuations serve the buckets in order if and only if the baselines are ordered |
| `Counter.MixedResetIsTheProblem` | scripts/smolllm_exporter.py:195-199 | from equal baselines one scrape leaves the future safe if and only if a reset of the lower bucket is also one of the higher |
| `Counter.ServeAlikeIffAlike` | scripts/smolllm_exporter.py:189-199 | two counters serve the same at every later scrape that lists both with the same raw value if and only if their baselines and last raw values agree |
| `Counter.LoneTakeHarmlessIff` | scripts/smolllm_exporter.py:189-199 | after equal histories, an observation of only one of two counters leaves them serving alike for good if and only if it repeated the last raw value |
| `Counter.LoneTakeExample` | scripts/smolllm_exporter.py:305-312 | 10, then 5 taken in by one counter alone, then 12 serves 22 against 12 |
| `Counter.MixedResetExample` | scripts/smolllm_exporter.py:238-243 | 10, 10 then 9, 11 serves the lower bucket above the higher one |
| `Exporter.ExporterMemory.RestartSafeCounter` | scripts/smolllm_exporter.py:189-199 | the two dictionaries change as one observation of one series, and the result is that series' served value |
| `Exporter.ExporterMemory.TransformBody` | scripts/smolllm_exporter.py:202-256 | the line loop computes the fold of the per-line handling over the body's lines, served values still as numbers |
| `Exporter.TransformText` | scripts/smolllm_exporter.py:202-256 | from the text of a body to the text that is served: those lines printed, joined by newlines, with a final newline even after no line at all |
| `Metrics.ServedLineReadsBack` | scripts/smolllm_exporter.py:227-262 | a whole served value is printed so that a reader gets back its series and the value |
| `ServedText.CommentSays` | scripts/smolllm_exporter.py:208-225 | a comment leaves memory alone; the two TYPE lines go out, the histogram's cut to its fixed part; any other comment mentioning `smolllm_attempts_total` is dropped; the rest goes out as it is |
| `ServedText.SampleSays` | scripts/smolllm_exporter.py:227-253 | a line of the shape of one of the four families moves its own counter and no other, and goes out with baseline plus raw value, the last raw value folded in if it dropped |
| `ServedText.OtherSays` | scripts/smolllm_exporter.py:255-255 | every other line goes out as it came |
| `ServedText.ServedLineSays` | scripts/smolllm_exporter.py:231-253 | a served sample is printed under its family's name with its labels, a single space and the number |
| `ServedText.ServedTextSays` | scripts/smolllm_exporter.py:256-256 | the served text is each line and a newline, and a newline alone when there is no line; copied lines are unchanged |
| `ServedText.TransformConcat` | scripts/smolllm_exporter.py:208-256 | lines are taken in one after the other, and their output follows in the same order |
| `ServedText.PageServed` | scripts/smolllm_exporter.py:208-225 | of the server's page, the attempt header goes out as its TYPE line, the wait header as two help lines and its TYPE line, around what the samples and the other families become |
| `ServedText.NumberMeans` | scripts/smolllm_exporter.py:185-186 | the patterns' number is digits, or digits, a point and digits |
| `ServedText.NumberValueMeans` | scripts/smolllm_exporter.py:232-232 | such a number is read as the exact value it denotes |
| `Exporter.ObserveIsStep` | scripts/smolllm_exporter.py:195-198 | each series lives in its own cell: observing one never moves another |
| `Exporter.SeriesKeysInjective` | scripts/smolllm_exporter.py:229-249 | no two series share a memory key, whatever their labels contain |
| `Exporter.TransformServesCells` | scripts/smolllm_exporter.py:202-256 | every series is served by its own restart-safe counter over the raw values the body lists for it, whatever else is in the body |
| `Exporter.TransformIsObserveAll` | scripts/smolllm_exporter.py:202-256 | when each series is listed once, taking in the body line by line is one simultaneous observation of a map |
| `Exporter.OnlyReading` | scripts/smolllm_exporter.py:227-255 | where at most one pattern can match, the order of the cases does not matter |
| `MessageExtras.ClientContentSurvives` | internal/llm/adapter.go:173-244 | for every codec, each client key other than `tool_calls` is on the wire with everything addressable in it, unowned calls go out as sent minus `index`, owned calls as the call pass left them, and no other key is added |
| `MessageExtras.WireIsDetermined` | internal/llm/adapter.go:211-236 | for every codec and every key: a client key other than `tool_calls` keeps the codec's value if nothing of it was lost and goes out as sent otherwise, unowned `tool_calls` go out stripped, and every other key is the codec's |
| `MessageExtras.OwnedCallsOnTheWire` | internal/llm/adapter.go:123-141 | call by call on the wire, with equal counts: `id`, `type`, `function` and `index` are the codec's or absent, every other key the client sent is there verbatim, and the rest is the codec's; with other counts, the codec's calls alone |
| `MessageExtras.NoClientIndexGoesOut` | internal/llm/adapter.go:211-224 | no `index` goes out on any call unless the codec itself writes one, whoever owns the calls |
| `MessageExtras.NothingToRestore` | internal/llm/adapter.go:193-197 | a message without a decoded variant and a null raw message are left alone |
| `MessageExtras.RestoreFailsIff` | internal/llm/adapter.go:119-122 | a message is refused exactly for a type error in its `tool_calls`, or when it or its re-encoding is no object |
| `MessageExtras.LosslessMeansUntouched` | internal/llm/adapter.go:184-242 | a message gets no extras if and only if the codec lost nothing and no unowned `tool_calls` was sent |
| `MessageExtras.OwnedCallsReplayed` | internal/llm/adapter.go:105-144 | with equal call counts every unmodelled call-level key arrives verbatim on its call, and every other key is the codec's own |
| `MessageExtras.ReplayNeedsEqualCounts` | internal/llm/adapter.go:123-125 | replay succeeds for every encoding if and only if the call counts agree or there is nothing to replay |
| `MessageExtras.CallPassKeepsOwnership` | internal/llm/adapter.go:271-290 | the call pass never changes which messages' calls are owned, nor their number |
| `MessageExtras.StripRemovesExactlyIndex` | internal/llm/adapter.go:246-269 | stripping a call array keeps every call and every key except `index`, leaves other shapes alone, and is idempotent |
| `MessageExtras.StripUndoesDeltaIndex` | internal/llm/types.go:204-229 | stripping undoes the streamed index if and only if no call had its own |
| `MessageExtras.RestoreToolCallExtras` | internal/llm/adapter.go:105-144 | in place over all messages: nothing if the counts differ, otherwise each message as specified; it fails exactly when a message with calls has a raw form whose calls do not decode, at the first such message, with those before it done and the others untouched |
| `MessageExtras.RestoreMessageExtras` | internal/llm/adapter.go:189-244 | in place over all messages, one wholesale assignment of extras per message, with the exact failure condition, the first failing message, and which of its three steps failed |
| `MessageExtras.RestoreExtras` | internal/llm/adapter.go:47-53 | both passes in order give each message its specified final value, with the exact failure condition |
| `MessageExtras.CollectMessageExtras` | internal/llm/adapter.go:210-236 | looping over the raw keys in any order collects exactly the re-attached ones |
| `MessageExtras.StripToolCallIndexes` | internal/llm/adapter.go:246-269 | deleting in place and re-encoding only on change equals the one-equation form |
| `MessageExtras.RestoreOneMessage` | internal/llm/adapter.go:126-141 | the inner loop restores each call from the raw call at the same position |
| `Json.SubsetIffNothingLost` | internal/llm/adapter.go:292-335 | the subset test holds exactly when every address in the one value shows the same in the other |
| `Json.SubsetReflexive` | internal/llm/adapter.go:307-335 | the subset order is reflexive |
| `Json.SubsetTransitive` | internal/llm/adapter.go:307-335 | the subset order is transitive |
| `Json.SubsetAntisymmetric` | internal/llm/adapter.go:307-335 | the subset order is antisymmetric |
| `RequestFields.ForwardRequest` | internal/llm/adapter.go:34-88 | a request with `functions`, an `n` other than one or messages that are no array is refused; otherwise exactly the keys outside the seventeen interpreted ones and the non-empty `tools`, `tool_choice`, `parallel_tool_calls` and `response_format` reach the provider, each with its own value, and never `stream`, `stream_options`, `messages` or `model` |
| `RequestFields.ChatRequest.Unmarshal` | internal/llm/types.go:77-105 | whatever the codec makes of the typed fields: deleting modelled and dropped keys in any order leaves exactly the others; on failure the receiver is untouched |
| `RequestFields.ForwardedSays` | internal/llm/adapter.go:338-360 | a named field that is not null, `[]` or `{}` is forwarded as sent, any other key goes out from the extra fields if it is there |
| `RequestFields.ChatRequest.PassThroughFields` | internal/llm/adapter.go:337-360 | named fields win over extra ones of the same name |
| `Credit.PrintedTotalIsTheSum` | internal/server/credit.go:68-71 | what a client parses out of the printed credit is the exact sum of the accepted debits, at the tracked scale of at most 18 places |
| `Credit.TotalOnGrid` | internal/server/credit.go:59-71 | the total times ten to the scale is a whole number, for any list of accepted debits |
| `Credit.PrintsExactly` | internal/server/credit.go:86-89 | printing such a number at its scale never rounds and gives a plain decimal that parses back to it |
| `Credit.ScanMatchesGrammar` | internal/server/credit.go:48-60 | lower-casing, splitting at `e`, searching the point and integer conversion read the places and exponent of the number grammar |
| `Credit.ReadDebit` | internal/server/credit.go:36-67 | the chain of early returns accepts exactly the debits the grammar admits, with their amount and places |
| `Credit.AcceptedIff` | internal/server/credit.go:36-67 | an event counts if and only if its credit is a JSON number of at most 64 bytes with exponent within 18, at most 18 decimals and a value of zero or more; it then counts exactly that value with the decimals it needs |
| `Credit.ReportGrows` | internal/server/credit.go:68-95 | one more event is one more attempt; if it counts, the stated sum grows by exactly its value, to the larger number of decimals; if not, the report is incomplete and its sum as before |
| `Credit.NothingReported` | internal/server/credit.go:75-95 | without events there is no credit and the report is not complete |
| `Credit.ZeroIsReported` | internal/llm/types.go:140-141 | a single explicit zero is reported as `0`, known and complete: free is not unknown |
| `Credit.NumeralDebitSane` | internal/server/credit.go:45-67 | an accepted debit is non-negative, bounded, and on the grid of its places |
| `Credit.CreditTally.Record` | internal/server/credit.go:28-73 | the running sums stay those of the whole list of recorded events |
| `Credit.CreditTally.Apply` | internal/server/credit.go:75-94 | every report of one tally carries one id, drawn once, and the metadata of all events so far |
| `Credit.OrderDoesNotMatter` | internal/server/credit.go:28-35 | any permutation of the events gives the same total, scale, attempts and known count |
| `Credit.ReportMeaning` | internal/server/credit.go:85-93 | a credit is reported if and only if some event carried an accepted one, and complete if and only if there was an event and every one did |
| `Credit.PrintedLengthBound` | internal/server/credit.go:45-63 | the printed credit has at most 101 characters more than the decimal number of known debits has, so a hostile provider cannot make it long |
| `Decimal.ParseText` | internal/server/credit.go:64-67 | every valid numeral is what its own text parses to |
| `Decimal.TextOfParse` | internal/server/credit.go:44-47 | whatever parses spells out the text it was parsed from |
| `Chat.StreamEqualsBlocking` | internal/server/chat.go:47-84 | reassembling an uncancelled, error-free stream gives the blocking content (null rule included), reasoning, finish reason and usage, and the same calls if and only if no call has its own `index` |
| `Chat.StreamSays` | internal/server/chat.go:104-180 | every frame, field by field: the role frame first, each call at its position with its `index`, the provider's own reason but for tool calls and an absent one, the error with its message, and one usage frame before the end with prompt, completion, total, reported cache counts and the tally's report |
| `Chat.ChunkByChunk` | internal/server/chat.go:125-141 | each chunk adds its content to the text, its reasoning to the reasoning, and one frame with both unless both are empty |
| `Chat.StreamGrammar` | internal/server/chat.go:112-180 | every run obeys the frame grammar: cancelled runs stop among text frames, all others end with one verdict, one usage frame iff wanted, and one `[DONE]` |
| `Chat.DeliveredIsPrefix` | internal/server/chat.go:117-143 | what was delivered is always a prefix of the upstream text, and all of it unless cancelled |
| `Chat.WholeStream` | internal/server/chat.go:112-197 | what a reassembling client holds at the end of a stream |
| `Chat.StreamLoop` | internal/server/chat.go:117-143 | the event loop with cancellation at any turn emits the text frames of the chunks seen before it |
| `Chat.ChatStream` | internal/server/chat.go:86-180 | no stream without a flusher, a reported error if the stream does not start, otherwise frames that say what the turn and the tally say; a report id is drawn exactly when a report is written |
| `Chat.ChatBlocking` | internal/server/chat.go:47-84 | the error, or an answer that says field by field what the turn and the tally say: model, content with its null rule, reasoning, calls, reason, prompt, completion, total and reported cache counts |
| `Chat.WriteVerdict` | internal/server/chat.go:145-177 | one error frame, or an optional tool frame with positions and one finish frame |
| `LedgerHistory.SteadyClockKeepsWindow` | internal/ledger/ledger.go:159-194 | if the clock never goes back, the retained rows are the grouping of every event of the window: a pruned row never reappears with partial sums |
| `LedgerHistory.RetainedIsWindow` | internal/ledger/ledger.go:159-194 | for any clock: the retained rows are the grouping of every event of the current window, if and only if no clock reading since such an event was recorded had put its day before the cutoff |
| `LedgerHistory.ClockGoingBackLosesRows` | internal/ledger/ledger.go:187-194 | a record, a view 100 days ahead and a view back at the start: the event of the current day is gone |
| `LedgerHistory.UndisturbedIffUnpruned` | internal/ledger/ledger.go:187-194 | that condition on clock readings holds exactly when nothing of the window was ever pruned |
| `LedgerHistory.PruneIsFilter` | internal/ledger/ledger.go:187-194 | deleting old rows is grouping without the old events |
| `LedgerHistory.GroupIsTotals` | internal/ledger/ledger.go:128-158 | the grouping has one row per key that occurs, holding the sums over its events |
| `LedgerHistory.TotalCounts` | internal/ledger/ledger.go:139-142 | a row's requests and failures are the numbers of its events and of those with an error |
| `LedgerHistory.TokenColumns` | internal/ledger/ledger.go:144-147 | each token column of a row is the sum of that field over the row's events |
| `LedgerHistory.ReportColumns` | internal/ledger/ledger.go:148-157 | the denominators of the hit rate count and sum only the events whose provider reported cache reads; estimates are counted apart |
| `LedgerHistory.KeptPlusPruned` | internal/ledger/ledger.go:159-194 | whatever is counted, retained and pruned events together give the whole history |
| `LedgerHistory.AttemptCountsCount` | internal/ledger/ledger.go:215-223 | the counters are exactly the numbers of events per key that occurs |
| `LedgerHistory.CumulativeIsExact` | internal/ledger/ledger.go:228-249 | every cumulative count is the number of `ok` events with a positive wait within the bound; counts do not decrease, and the last is the total |
| `LedgerHistory.SumIsExact` | internal/ledger/ledger.go:228-248 | the sum is the total wait of exactly the counted events |
| `LedgerHistory.SamplesAtMostOk` | internal/ledger/ledger.go:225-228 | a histogram counts at most the `ok` attempts of its key |
| `LedgerHistory.ViewsConserveEvents` | internal/ledger/ledger.go:139-143 | per alias, provider and model: attempts equal retained plus pruned requests, and non-`ok` attempts equal failures plus error-free first-output timeouts |
| `LedgerHistory.FailureViewsAgree` | internal/ledger/ledger.go:201-213 | the two failure views agree if and only if every first-output timeout carried an error |
| `LedgerHistory.SilentTimeoutSplitsTheViews` | internal/ledger/ledger.go:201-206 | a single event with a first-output timeout and no error is a non-`ok` attempt and no failure |
| `LedgerReading.CountersByOutcome` | internal/ledger/ledger.go:198-223 | per alias, provider, model and transport mode: `canceled`, `error` and `ok` count the events without a first-output timeout that ended by the caller, by another error or by none, with no phase; `first_output_timeout` counts the timeouts of its phase whatever their error |
| `LedgerReading.NoOtherCounters` | internal/ledger/ledger.go:75-80 | there are no other outcomes, and only timeouts carry a phase |
| `LedgerReading.TotalsByOutcome` | internal/ledger/ledger.go:201-213 | per alias, provider and model the counters of each outcome add up to the events that ended that way |
| `LedgerReading.WaitsByEdge` | internal/ledger/ledger.go:100-104 | a reported histogram counts, for each edge in nanoseconds and without one, exactly the successful attempts of its key that waited no longer; its sum is their total wait and its count their number |
| `LedgerReading.RowsByDay` | internal/ledger/ledger.go:124-160 | with a clock that never goes back, a row is listed if and only if its day is at most 31 before today and has events, and each of its nine columns is the sum over the fields of those events |
| `LedgerReading.SnapshotOrder` | internal/ledger/ledger.go:172-184 | rows come oldest day first, then by alias, provider and model byte by byte |
| `LedgerReading.AttemptOrder` | internal/ledger/ledger.go:290-302 | attempts come by alias, model, outcome and phase |
| `LedgerReading.SampleOrder` | internal/ledger/ledger.go:328-334 | waits come by alias and model |
| `Ledger.UsageLedger.Record` | internal/ledger/ledger.go:123-160 | after any record the three maps are the folds over the extended history |
| `Ledger.UsageLedger.RecordAttempt` | internal/ledger/ledger.go:196-250 | counters and histograms, mutated in place, show the history with the new event |
| `Ledger.UsageLedger.Prune` | internal/ledger/ledger.go:187-194 | deleting keys in any order leaves the grouping of the filtered events |
| `Ledger.UsageLedger.Snapshot` | internal/ledger/ledger.go:162-185 | the rows are a sorted listing of the grouping of the kept history |
| `Ledger.UsageLedger.Attempts` | internal/ledger/ledger.go:278-304 | the counters are a listing of the counts over the full history, sorted by the coded comparator |
| `Ledger.UsageLedger.FirstOutputs` | internal/ledger/ledger.go:306-336 | exactly one sample per key with a wait, each with the cumulative counts of the full history, sorted by the coded comparator |
| `Ledger.FirstOutputHist.Observe` | internal/ledger/ledger.go:238-248 | the search for the bucket and the three updates are one observation of the histogram |
| `Ledger.Cumulate` | internal/ledger/ledger.go:314-321 | the running loop gives the prefix sums of the counts |
| `Ledger.SnapshotDetermined` | internal/ledger/ledger.go:172-184 | any two listings that satisfy the snapshot's contract are the same sequence |
| `Ledger.AttemptViewDistinct` | internal/ledger/ledger.go:283-289 | the attempt view has one entry per key |
| `Exposition.ReadEscaped` | internal/server/metrics.go:82-91 | unescaping undoes escaping for every string, whatever follows |
| `Exposition.EscapedByChar` | internal/server/metrics.go:82-91 | a backslash, a quote and a newline become a backslash with a backslash, a quote and an n; every other character stays |
| `Exposition.ParseBlockBack` | internal/server/metrics.go:33-36 | a printed label block parses back to its labels |
| `Exposition.BlocksInjective` | internal/server/metrics.go:33-36 | no two label lists print the same block |
| `Exposition.MatchIsTheOnlyReading` | scripts/smolllm_exporter.py:185-186 | the greedy pattern matches a line exactly when it has the sample shape, and in one way only, whatever braces and quotes the labels contain |
| `Exposition.PrintedCountReadsBack` | scripts/smolllm_exporter.py:227-232 | a printed sample is matched with exactly its label block and value |
| `Exposition.SplitUndoesJoin` | scripts/smolllm_exporter.py:208-208 | a body splits back into the printed lines if and only if no line contains a break |
| `Exposition.SplitSays` | scripts/smolllm_exporter.py:208-208 | lines end at one of Python's ten break characters or at a carriage return with the newline after it; a break at the very end starts no further line |
| `Exposition.EscapedIsOneLine` | internal/server/metrics.go:82-91 | an escaped value is one line if and only if the value has no break other than newline |
| `Metrics.WriteMetrics` | internal/server/metrics.go:21-65 | appending to one text gives the joined lines of headers, attempts and histograms |
| `PageText.PageSays` | internal/server/metrics.go:21-65 | the ledger's part of the page: the attempt header, one line per counter, the wait header if there is a histogram, and twelve lines per histogram, in the order of the views |
| `PageText.TypeLinesSay` | internal/server/metrics.go:25-42 | the two TYPE lines call the families a counter and a histogram |
| `Metrics.WaitLineOf` | internal/server/metrics.go:44-62 | the lines of the i-th histogram stand from the 12 i-th on |
| `PageText.AttemptLineSays` | internal/server/metrics.go:32-36 | an attempt line is the family name, the six labels in the source's order with their own values, and the count |
| `PageText.BucketLineSays` | internal/server/metrics.go:45-56 | the i-th line of a histogram is its four labels, the i-th bound and the i-th cumulative count |
| `PageText.BoundTextSpells` | internal/ledger/ledger.go:100-104 | the printed text of each bound is a number, and it is that bound |
| `PageText.LastLinesSay` | internal/server/metrics.go:57-64 | then come everything under `+Inf`, the sum and the count |
| `Metrics.PrintedSampleReadsBack` | internal/server/metrics.go:27-36 | the exporter reads every printed count as its own family, label block and value |
| `Metrics.ReadHead` | scripts/smolllm_exporter.py:227-235 | a line that starts like one family is read as that family or not at all |
| `Metrics.MentionIsDropped` | scripts/smolllm_exporter.py:209-225 | every comment that mentions the attempt counter and is not a TYPE line is dropped |
| `Metrics.WaitHelpLosesALine` | internal/server/metrics.go:39-41 | that includes the third help line of the wait histogram |
| `Metrics.BodyIsPaired` | internal/server/metrics.go:48-61 | in one body each `+Inf` bucket and its `_count` list the same raw values |
| `Metrics.LinesSurviveTransport` | internal/server/metrics.go:21-65 | the exporter sees the printed lines if and only if no label value holds a break other than newline |
| `Metrics.CarriageReturnBreaksThePage` | internal/server/metrics.go:85-91 | with a carriage return in a model name the exporter never sees the printed lines |
| `Breaks.StrayCount` | scripts/smolllm_exporter.py:185-186 | at an alias holding a carriage return and the start of a count line, every bucket line arrives as two lines, the second read as a count of that bucket's value, for labels no `+Inf` bucket is listed for |
| `Breaks.StrayCountIsServedAlone` | scripts/smolllm_exporter.py:208-243 | whatever the memory, that count is served and the matching bucket is not |
| `ServerPage.ServeMetrics` | internal/server/metrics.go:94-103 | the handler's body is the page of the ledger's and the account counters' recorded histories, as the scraping theorems take it |
| `ServerPage.ServedInfEqualsCount` | internal/server/metrics.go:48-61 | from recorded events to served values, with nothing assumed of a page but that the server printed it from clean names: after every scrape of every run, across server and exporter restarts and transforms that stop anywhere but between the two lines, each served `+Inf` bucket equals its served `_count` |
| `Incarnations.ServedNeverExceedsRecorded` | internal/ledger/ledger.go:196-223 | from recorded events to served values over any number of lives of the server and exporter restarts, transforms that stop part-way included: a whole transform serves each attempt counter with an event, at most the number of events recorded for its key in all lives so far, with equality if and only if the scrapes its memory stems from were clean |
| `Incarnations.RunTracks` | scripts/smolllm_exporter.py:189-199 | after every visit of such a run the memory of each attempt counter is the restart-safe run of the scrapes that led to it |
| `Incarnations.PageListsAttempts` | internal/server/metrics.go:26-37 | a printed page lists the number of recorded events of a key once, and nothing for a key without events |
| `Incarnations.LaterFollows` | internal/ledger/ledger.go:215-223 | within a life a counter only grows, and across lives what was counted before is at most the total of the lives that ended |
| `ServerPage.ServerPageIsFit` | internal/server/metrics.go:94-103 | the page the server prints of its ledger and account counters meets everything the scraping theorems ask of a page |
| `Pipeline.InfEqualsCount` | internal/server/metrics.go:48-61 | the same for any pages that show ledger histories in lines that survive the transport |
| `Pipeline.VisitServes` | scripts/smolllm_exporter.py:300-317 | a visit steps each series by the raw values it took in, and serves it along them unless the transform stopped part-way |
| `BucketOrder.BucketsServedInOrder` | scripts/smolllm_exporter.py:238-243 | after every scrape of every run, across server and exporter restarts, two buckets of one histogram are served together and in the order of their bounds, provided no scrape shows a reset at the lower bound without one at the higher, or stops between the two |
| `ServerPage.ServedBucketsInOrder` | scripts/smolllm_exporter.py:238-243 | the same for the pages the server prints from clean names |
| `BucketOrder.PageListsCounts` | internal/server/metrics.go:48-56 | a printed page lists, for each bound of each histogram, exactly the reported cumulative count |
| `Pipeline.ShownIsBalanced` | internal/ledger/ledger.go:314-326 | what the ledger shows has equal last cumulative count and total |
| `Pipeline.EachSeriesListedOnce` | internal/server/metrics.go:26-61 | no series occurs twice on a page with distinct keys |
| `Pipeline.PageIsOneObservation` | scripts/smolllm_exporter.py:202-256 | taking in the printed page text is the protocol's one-step observation of a map |
| `AccountMetrics.FamiliesConserveEvents` | internal/server/account_metrics.go:76-94 | the five families add up to the number of recorded events of a known kind |
| `AccountReading.FamiliesByKind` | internal/server/account_metrics.go:82-93 | each family counts the events of its own kind: transitions per account as `opened` or `closed`, skips per leg and reason, probes, fail-opens and unrecognized 429s per leg |
| `AccountReading.StateByReport` | internal/server/account_metrics.go:128-134 | the last report of an account decides its state, an account that only had an event is `closed`, and there are no others |
| `AccountReading.ProbesArePrinted` | internal/server/account_metrics.go:117-126 | every leg with probes, fail-opens or unrecognized 429s is on the page under the name of that family, with its labels and the number of its events |
| `AccountReading.SkipsArePrinted` | internal/server/account_metrics.go:113-116 | likewise for skips, with the reason |
| `AccountReading.TransitionsArePrinted` | internal/server/account_metrics.go:108-112 | likewise for transitions, per account |
| `AccountReading.GaugeLinesSay` | internal/server/account_metrics.go:149-157 | an account's gauge lines are closed, open and half_open in this order, with a 1 at its state |
| `AccountReading.FamilySays` | internal/server/account_metrics.go:176-184 | a family is a help line, a type line and its series, or nothing at all without series |
| `AccountReading.TablesInOrder` | internal/server/account_metrics.go:103-160 | the page is the five families under their names and then the gauge, in this order |
| `AccountReading.NothingBeforeEvents` | internal/server/account_metrics.go:100-102 | before the first event and report nothing is printed at all |
| `AccountReading.SeriesOrder` | internal/server/account_metrics.go:172-172 | series come by their label text |
| `AccountReading.AccountOrder` | internal/server/account_metrics.go:139-144 | accounts come by provider and account |
| `AccountMetrics.RenderingIsInjective` | internal/server/account_metrics.go:108-126 | the label block determines the series, for every family |
| `AccountMetrics.FamilyDetermined` | internal/server/account_metrics.go:167-174 | a rendered family is a function of the counters alone |
| `AccountMetrics.SortedSeries` | internal/server/account_metrics.go:167-174 | one series per key with its count, sorted by label block |
| `AccountMetrics.AccountCounters.Record` | internal/server/account_metrics.go:76-94 | each map stays the tally of its own family over all events |
| `AccountMetrics.AccountCounters.Write` | internal/server/account_metrics.go:100-160 | the printed text is the five sorted families and the state gauge, of all recorded events and the breaker's reports |
| `AccountMetrics.TablesDetermined` | internal/server/account_metrics.go:103-160 | what is printed is a function of those events and reports alone |
| `AccountMetrics.CollectStates` | internal/server/account_metrics.go:128-134 | every account ever reported on is closed unless the breaker's last report of it says otherwise |
| `AccountMetrics.OneHot` | internal/server/account_metrics.go:149-157 | an account in a known state shows exactly one 1 among its three lines |
| `AccountPage.TablesAreNotSamples` | internal/server/account_metrics.go:108-157 | no line of the account page, header and gauge lines included, is read as a sample by the exporter |
| `AccountPage.TablesAreOneLine` | internal/server/account_metrics.go:108-157 | with clean names every line of the account page is one line |
| `AccountPage.FamiliesAreNotSamples` | internal/server/account_metrics.go:176-184 | the exporter passes a family's series through as they are |

## Left out

- Ledger.UsageLedger.Attempts: only a permutation sorted by the coded comparator, because that comparator omits provider and transport mode.
- Ledger.UsageLedger.FirstOutputs: likewise, the comparator looks at alias and model only.
- ServerPage.ServedInfEqualsCount: not claimed of names with a line break other than newline, nor of runs in which a transform stopped between the two lines, because it is false there (`Breaks.StrayCountIsServedAlone`, `Counter.LoneTakeHarmlessIff`).
- ServerPage.ServedBucketsInOrder: likewise not claimed of names with such breaks.
- Incarnations.ServedNeverExceedsRecorded: likewise not claimed of names with such breaks, whose pieces may be read as attempt lines.
- ExporterSafety.ServedNeverDecreases: histogram sums printed in exponent form match no pattern of the exporter, are copied raw and lie outside the modelled payload, so nothing is claimed of them.
- RequestFields.ChatRequest.Unmarshal: whether the typed fields decode is an input, except for the shape of `messages`; Go's case-insensitive and duplicate JSON keys are not modelled.
- RequestFields.ForwardRequest: the checks of single fields other than `functions` and `n` (model, token limit, timeout, stop, the library's validation) are one input.
- MessageExtras.RestoreExtras: messages without a decoded variant get nothing restored, as in the code; keys nested inside a call's `function` object are not claimed.
- Float rounding: `_fmt` and Go's `formatFloat` are not modelled; sums are reals, and the text of a histogram sum is an arbitrary function that prints neither a line break nor a closing brace.
- Integer width: counters and token sums are unbounded; 64-bit wrap-around is not modelled (the exponent's integer conversion does have its 64-bit range).
- Dates: days are integers, ordered as the zero-padded date strings are.
- Sorting: `sort.Slice` and Go's map iteration order appear as any order with only sortedness and permutation relied on.
- Unicode digits and white space in the exporter's patterns: ASCII only.
- Directory sync, disk corruption and hand-edited state files: a rename is atomic and durable, and a torn file reads as empty.
- A body cut short on the network: a scrape sees some subset of the series, each with its true raw value.
- The exporter's own gauges and footer lines, and its unused variables `hist_prev` and `in_hist`.
- The error headers, which repeat the report, and the wording of the account families' help texts, which may be any one-line text.
- HTTP, SSE flushing, authentication, configuration, deployment scripts and dashboards: plumbing without state.
- The breaker, fallback and retry engine: it lives in `smolllm-go`, which is not part of this model.
- Random report ids and clock readings are parameters.
