# Verified models of the azoth agent core

This project models the parts of azoth that are hardest to get right and proves what
they promise. Sources in Go that update state in place are modelled as classes and methods
proved against specification functions; concurrent code is modelled as a transition system
over its critical sections, channel operations and decisions, and theorems range over every
interleaving. Check it with `dafny verify dfyconfig.toml`.

| Files | What they model |
|---|---|
| `Pool`, `PoolProtocol`, `PooledClient` | the FIFO slot pool, every interleaving of grant, hand-off, timeout, cancel and double release, and the client that ties a slot to a stream |
| `StreamProtocol`, `ChatEvents`, `ChatGrammar` | the two goroutines of a streaming chat and its consumer; the events one run emits |
| `LoopGuard`, `LoopGuardTheorems`, `ChatLoops` | the repetition and novelty detectors, exact and timely, alone and inside a run that mixes both channels |
| `Retry`, `Probe` | the nested retry loops; the connection indicator and its recovery probe |
| `Octets`, `Base64`, `Text`, `MessageCodec`, `MessageWire`, `MessageRoundTrip` | the wire form of messages, field by field, and exactly when it round-trips |
| `Sorting`, `Decimal`, `Migrate` | the migration runner: atomic steps, crash and resume |
| `Turns`, `Translate`, `Bedrock`, `Vertex` | the buffering and the message loop two vendor translators share, their blocks, and Vertex's tool-call ids |
| `ToolCalls`, `InlineCalls`, `InlineRoundTrip` | reassembly of streamed tool calls; recovery of calls leaked into text |
| `Registry` | the tool registry and its memoised listing under concurrent writers |
| `Framing` | length-prefixed framing over a cut stream read in any chunks |

Results worth knowing before reading on:

- The skip branch of `release` is dead: no queued waiter is ever marked done
  (`PoolProtocol.Conservation`).
- "Disconnected implies a live probe" is false of the code. `Probe.RaceReachable` gives
  a run that breaks it, and `Probe.WatchedUnlessMissed` says exactly which runs do: those where a
  claim was refused on account of a probe that had already left its loop.
- A message does not always survive a JSON hop. `MessageRoundTrip.FieldsRestoredIff` and
  `MessageRoundTrip.BlocksRestoredIff` give the exact condition, part by part;
  `MessageRoundTrip.BytesLost` and `MessageRoundTrip.LeadBecomesContent` are two that do not.
- Two tool results separated only by an empty assistant message still go out in two
  messages (`Turns.ResultsShareTurnIff`, and `Translate.EmptyMessageParts` for the three
  messages themselves).
- Ids within one Vertex stream are distinct when all are synthesised, but an id given by the
  provider can spell one that is synthesised later (`Vertex.ProvidedIdCanClash`, with the exact
  condition in `Vertex.DistinctIdsIff`).
- A cut right after a frame's length prefix gives a short-frame error that wraps end of file,
  and only a cut on a frame boundary gives a clean close (`Framing.CleanCloseIff`).
- A body can wait for ever only if the server goes silent before the first chunk, or when no
  stall timeout is set (`StreamProtocol.NeverStranded`).

## Model

| member | source | states |
|---|---|---|
| PoolCore.RemoveFirstAt | llm/pool.go:120-125 | the scan loop that cuts out the first match removes exactly that element |
| PoolCore.Pool.constructor | llm/pool.go:58-66 | capacity below 1 becomes 1; nothing in flight, nobody queued |
| PoolCore.Pool.ArriveLocked | llm/pool.go:73-87 | the critical section of Acquire moves the pool as the protocol's arrival does: a slot at once, or the end of the queue |
| PoolCore.Pool.AbandonLocked | llm/pool.go:113-126 | a waiter giving up leaves the queue, or learns that it owns a slot to pass on |
| PoolCore.Pool.ReleaseLocked | llm/pool.go:140-153 | the pop loop finds the first waiter not done and marks it, or frees the slot |
| PoolProtocol.NextInv | llm/pool.go:72-154 | every step of every call keeps conservation, queue order, single hand-off and fairness |
| PoolProtocol.Conservation | llm/pool.go:74-79 | in every reachable state inflight is the number of owners, lies within capacity, is capacity while anyone queues, and no queued waiter is done |
| PoolProtocol.StrictFifo | llm/pool.go:68-71 | grants happen in arrival order over whole runs; an earlier arrival not granted by then had given up; nobody is decided twice |
| PoolProtocol.SendNeverBlocks | llm/pool.go:147-150 | whenever a hand-off reaches its send, the waiter's one-place channel is empty |
| PoolProtocol.TokensTakenAlways | llm/pool.go:96-100 | in every run a slot holder's channel is empty and no token is on its way to it |
| PoolProtocol.NoLostWakeup | llm/pool.go:136-154 | while any call is unfinished, some slot owner or receiver can move |
| PoolProtocol.NextWork | llm/pool.go:72-154 | each such move, and each decision to give up, uses up finite work |
| PoolProtocol.EveryoneServed | llm/pool.go:72-154 | without new arrivals every schedule ends, and at its end every waiter was granted or gave up and all slots are back |
| PoolProtocol.NextPlace | llm/pool.go:139-151 | no step moves a queued waiter back, and each release moves it forward |
| PoolProtocol.BoundedBypass | llm/pool.go:139-151 | a waiter at queue place n sees at most n releases before its own, under any arrivals |
| PooledClient.AfterKeeps | llm/pooled.go:23-42 | each step of a pooled Chat keeps the slot's lifetime around the stream's |
| PooledClient.BoundedConcurrency | llm/pooled.go:23-42 | never more inner requests than capacity, each owning a slot, and a call whose outer channel closed owns none |
| PooledClient.SomethingMoves | llm/pooled.go:34-40 | any call not done can be moved on, possibly by its inner stream ending |
| PooledClient.EveryStreamCloses | llm/pooled.go:23-42 | without new arrivals every schedule ends, and at its end every outer channel is closed, the queue is empty and no slot is in use |
| StreamProtocol.NextInv | llm/openai.go:475-501 | no step strands a parser parked on its send |
| StreamProtocol.Progress | llm/openai.go:520-607 | something can always move until all is closed, short of a silent server no watchdog covers |
| StreamProtocol.NextWork | llm/openai.go:520-607 | every step of either goroutine, the drainer or the consumer uses up finite work |
| StreamProtocol.NeverStranded | llm/sse.go:30-68 | for every body, schedule, abort, failure and early break: bounded run, parser never stranded, and a run that cannot go on has closed every channel and goroutine, unless it waits on a silent server before the first chunk or without a stall timeout |
| StreamProtocol.BodyAccounted | llm/sse.go:39-63 | on an unbroken connection no payload is skipped, repeated or reordered: those taken, the one in hand and those still to be scanned make up the body |
| StreamProtocol.EventsAccounted | llm/openai.go:551-641 | events taken, buffered and still to be sent are those of the payloads delivered plus the closing ones |
| StreamProtocol.WholeBodyHeard | llm/sse.go:30-68 | an unbroken run that is over has received or drained the whole body in order; without an early exit the loop heard all of it and the consumer took every event |
| StreamProtocol.StallNeedsPayload | llm/openai.go:503-535 | the watchdog never fires before the first payload, nor when it is off |
| StreamProtocol.BreakEndsWait | llm/stream.go:34-39 | a consumer that breaks off never leaves anybody waiting for a silent server |
| StreamProtocol.RunsEnd | llm/stream.go:25-58 | a run from any state the protocol reaches is no longer than its remaining work, early break included |
| LoopGuard.IsCyclicSuffix | llm/loopguard.go:172-180 | true exactly when the last span runes have the period |
| LoopGuard.DistinctShingles | llm/loopguard.go:117-140 | counts the shingles and the distinct hashes among them |
| LoopGuard.RepetitionDetector.ScanCycles | llm/loopguard.go:145-168 | the scan over unit lengths is true exactly when some unit's span ends the tail |
| LoopGuard.RepetitionDetector.Add | llm/loopguard.go:69-82 | the whole new detector state and the verdict, for every fragment |
| LoopGuard.RepetitionDetector.AddReasoning | llm/loopguard.go:88-111 | the same for the reasoning channel, an early cyclic trip leaving the novelty state alone |
| LoopGuard.RepetitionDetector.Slide | llm/loopguard.go:92-98 | the window is the last 3072 runes of the old window and the fragment |
| LoopGuard.RepetitionDetector.Judge | llm/loopguard.go:99-110 | a full window with a scan due is judged, the streak counted or cleared |
| LoopGuard.SpanBounds | llm/loopguard.go:37-43 | a unit's span is at least 48 runes and four repetitions, and always fits the tail |
| LoopGuardTheorems.PeriodicIsRepeat | llm/loopguard.go:170-180 | having a period over whole units is being one unit repeated |
| LoopGuardTheorems.CyclicMeansRepeatedUnit | llm/loopguard.go:142-168 | the scan fires on exactly the tails ending in a unit of at most 128 runes repeated at least 4 times over at least 48 runes |
| LoopGuardTheorems.TailIsRecent | llm/loopguard.go:69-79 | the tail is the last min(1024, N) runes fed, however they were split |
| LoopGuardTheorems.CyclicTimely | llm/loopguard.go:67-82 | a stretch of period p of length span(p)+63+f in fragments of at most f runes trips Add by its end |
| LoopGuardTheorems.TripsExactly | llm/loopguard.go:67-82 | Add trips if and only if 64 runes have come since the last scan and the last 1024 runes fed end in a unit of at most 128 runes, at least 4 times over at least 48 runes |
| LoopGuardTheorems.FewShingles | llm/loopguard.go:117-140 | whatever the hash, text of period p has at most p/gcd(p,8) distinct shingles |
| LoopGuardTheorems.PeriodicWindowIsLow | llm/loopguard.go:105-107 | so a full window with p/gcd(p,8) <= 114 is below the novelty floor |
| LoopGuardTheorems.WindowIsRecent | llm/loopguard.go:92-104 | while nothing trips the window is the last 3072 reasoning runes and a due scan is never skipped |
| LoopGuardTheorems.LowExactly | llm/loopguard.go:54-59 | a full window is low exactly when at most 114 of its 382 shingle hashes, 24 runes long and 8 apart, are distinct |
| LoopGuardTheorems.JudgedExactly | llm/loopguard.go:92-110 | a reasoning fragment trips the novelty scan if and only if that scan is due and is the third in a row to find the window low |
| LoopGuardTheorems.NoveltyTimely | llm/loopguard.go:84-111 | reasoning of such a period trips within 3072 + 3(255+f) runes |
| ChatLoops.CyclicRunStops | llm/openai.go:558-578 | in a run that mixes reasoning and text in one tail, a stretch of period p of length span(p)+63+f has stopped the run by its end |
| ChatLoops.NoveltyRunStops | llm/openai.go:558-561 | reasoning that settles into a period with at most 114 phases has stopped the run within 3072 + 3(255+f) reasoning runes, whatever is said in between |
| ChatLoops.RepetitionExactly | llm/openai.go:558-578 | a fragment stops a run for repetition if and only if the text heard ends in such a unit when a scan is due, or it is reasoning whose scan is the third low one in a row; what does not repeat is never stopped |
| ChatLoops.LoopingChatStops | llm/openai.go:458-642 | end to end from the payloads: such a run's events are exactly those up to a first stop inside the stretch |
| ChatLoops.RepeatingChatStops | llm/openai.go:458-642 | the same for the novelty guard |
| ChatEvents.ChatRun.OnReasoning | llm/openai.go:556-571 | the reasoning branch: event, detector, then the budget, only before acting |
| ChatEvents.ChatRun.OnContent | llm/openai.go:572-579 | the content branch: acting, event, detector |
| ChatEvents.ChatRun.Choices | llm/openai.go:551-588 | the choice loop with its three exits |
| ChatEvents.ChatRun.Run | llm/openai.go:458-642 | the goroutine's whole event list, for every payload sequence, stall timing and stream ending |
| ChatGrammar.ReceiveSteps | llm/openai.go:520-596 | the loop over payloads and choices is one pass over the items of the stream |
| ChatGrammar.StepDescribes | llm/openai.go:551-595 | after each item the loop's variables are what the items heard so far say, and the item's delta is out even when it stops the run |
| ChatGrammar.StepStops | llm/openai.go:556-587 | an item stops the run exactly when the description says so, and with that reason |
| ChatGrammar.RunsToFirstStop | llm/openai.go:458-642 | every run, exactly: all deltas up to and including the first item that trips the detector, exceeds the budget, is silent too long or is malformed, then that item's ending with the last usage heard; or everything, then the reassembled calls, last usage and last reason, or one error for a broken stream |
| ChatGrammar.EveryRunGrammatical | llm/openai.go:598-641 | deltas, then one error or at most one tool-call event, at most one usage and one Done; tool calls and broken-stream errors only in runs nothing stopped |
| ChatGrammar.UnguardedRunIsComplete | llm/openai.go:520-641 | with the guards off and nothing malformed a run hears everything |
| ChatGrammar.BudgetHolds | llm/openai.go:562-570 | the reasoning before acting, short of the fragment that stopped the run, is within the budget |
| ChatGrammar.FirstSilenceIsFree | llm/openai.go:503-535 | a silence before the first payload never ends a run |
| Retry.Client.DoChatRequest | llm/openai.go:292-337 | the transport loop's result and its every effect: requests, waits, open bodies, indicator |
| Retry.Client.DoChatRequestRetryingStatus | llm/openai.go:358-409 | the same for the status loop around it |
| Retry.RequestBound | llm/openai.go:283-337 | at most three requests and two seconds of waiting; a transport error only after one on every attempt; a body open only on success |
| Retry.RequestExactly | llm/openai.go:292-337 | doChatRequest exactly: it tries again only after transport errors, at most twice, with the backoffs in between, and the attempt it ends at decides result, indicator and open body |
| Retry.RoundBound | llm/openai.go:359-407 | one round of the status loop: bounded requests and waiting, and why it stops |
| Retry.ChatBound | llm/openai.go:269-409 | one Chat makes at most 3(R+1) requests and sleeps at most R max(cap, 3 s) + (R+1) 2 s, ending with one open body on success and none on failure |
| Retry.StatusSurfaced | llm/openai.go:387-395 | a surfaced status error is the last response, and is final, over the cap, or came after every retry |
| Retry.StatusExactly | llm/openai.go:358-409 | when every request is answered: it asks again after each answer worth it, having waited what Retry-After asks or else the backoff, until the first final answer or a wait cut short |
| Retry.ErrorPassesThrough | llm/openai.go:360-363 | an error of doChatRequest ends the status loop with that error at once |
| Retry.DefaultWaits | llm/openai.go:269-279 | the default waits are 0.5 s, 1.5 s, then 3 s |
| Probe.ConnTracker.Get | llm/connstate.go:60-64 | the state last set |
| Probe.ConnTracker.Set | llm/connstate.go:71-80 | returns the previous state and moves the timestamp only on a real change |
| Probe.ConnTracker.ClaimProbe | llm/connstate.go:85-93 | the claim succeeds exactly when nobody holds it, and is held afterwards |
| Probe.ConnTracker.ReleaseProbe | llm/connstate.go:97-101 | the claim is free, the state untouched |
| Probe.SinceIsTransition | llm/connstate.go:66-70 | the timestamp is that of the report that entered the current state, over any reports |
| Probe.OneProbe | llm/probe.go:22-51 | in every interleaving at most one holder of the claim, and probing is true exactly while there is one |
| Probe.LeavesOnlyConnected | llm/probe.go:42-50 | a probe leaves its loop only once the indicator is no longer Disconnected |
| Probe.AnswerRecovers | llm/probe.go:34-51 | an unanswered ping is repeated; an answered one clears the indicator and frees the claim |
| Probe.AnswerIsReported | llm/probe.go:46-49 | an answered probe stays until it has reported Connected, whatever others do |
| Probe.IndicatorMoves | llm/openai.go:365-368 | which steps move the indicator, and to what; all others leave it |
| Probe.ClaimsOnEdge | llm/openai.go:448-451 | a failed Chat claims the probe exactly when it moved the indicator into Disconnected |
| Probe.StrandedExactlyBy | llm/probe.go:34-51 | Disconnected loses its last watcher by one step only: a claim refused because of a leaving probe; and only a Chat's report undoes it |
| Probe.WatchedUnlessMissed | llm/openai.go:443-452 | at the end of any run Disconnected has no watcher and no pending claim exactly when that step happened and no Chat has reported since |
| Probe.RaceReachable | llm/probe.go:27-51 | such a run exists |
| Base64.RoundTrip | llm/messages.go:156 | decoding undoes encoding for every byte string (section 4 of RFC 4648) |
| Base64.Alphabet | llm/messages.go:156 | the standard alphabet (section 4 of RFC 4648) |
| Base64.DecodesIff | llm/messages.go:334 | decoding takes exactly groups of four digits, the last with at most two signs of padding, line breaks aside |
| Base64.Vectors | llm/messages.go:156 | three of the examples of section 10 of RFC 4648 |
| MessageCodec.FilterForRequest | llm/messages.go:74-93 | the messages not ignored, in order |
| MessageWire.DropsIgnored | llm/messages.go:74-93 | exactly the ignored messages are dropped, the order kept |
| MessageCodec.MarshalBlocks | llm/messages.go:227-253 | the block loop: Content first, then a block for each part of a known type |
| MessageWire.EnvelopeOnWire | llm/messages.go:177-197 | role always, tool-call id, name and tool calls when not empty, each with its value |
| MessageWire.ContentOnWire | llm/messages.go:185-196 | content is omitted exactly by an assistant message that leaves everything to its tool calls; without parts it is the text, even empty; with parts it is their blocks |
| MessageWire.BlockIsPart | llm/messages.go:234-252 | the JSON of each kind of part, and that parts of other types have none |
| MessageWire.WrongContent | llm/messages.go:289-309 | a content that is neither text, a list nor null is refused, after the other fields were read and the old content cleared |
| MessageWire.ContentTaken | llm/messages.go:288-326 | text, null, missing content and lists of well-formed blocks are taken |
| MessageWire.BlockRead | llm/messages.go:310-325 | what each kind of block becomes: one without its payload or of another kind is passed over, a file id wins over data |
| MessageWire.UrlRead | llm/messages.go:331-340 | a URL is read as bytes exactly when it is a data: URL whose text after the first marker decodes, and stays a URI otherwise |
| MessageCodec.Receiver.UnmarshalJSON | llm/messages.go:269-327 | the receiver after decoding any JSON value, and whether it succeeds; a failed decode keeps what was already written |
| MessageRoundTrip.DataUrlRoundTrip | llm/messages.go:331-340 | parsing undoes printing of a data: URL exactly when the MIME type holds no ";base64," |
| MessageRoundTrip.EnvelopeRestored | llm/messages.go:173-198 | decoding an encoded message always succeeds and restores role, tool calls, tool-call id and name |
| MessageRoundTrip.KeptIff | llm/messages.go:234-252 | which parts come back: an exact condition on each part |
| MessageRoundTrip.FieldsRestoredIff | llm/messages.go:264-268 | Content and Parts come back field by field exactly when every part is kept and no leading text part can be taken for Content |
| MessageRoundTrip.BlocksRestoredIff | llm/messages.go:264-268 | the block list comes back exactly when every part is kept and no empty text part leads |
| MessageRoundTrip.BytesLost | llm/messages.go:152-155 | a message that does not come back: inline bytes with no MIME type |
| MessageRoundTrip.LeadBecomesContent | llm/messages.go:264-268 | a leading text part comes back as Content, the block list the same |
| Migrate.MigrationVersion | store/migrate.go:106-115 | the leading digits as a number, with both errors: no digit, out of range |
| Migrate.VersionRoundTrip | store/migrate.go:103-105 | a padded number before anything that is not a digit is read as that number |
| Migrate.VersionRefused | store/migrate.go:106-114 | a name is refused exactly when it does not start with a digit or its number does not fit |
| Migrate.OnlySqlFiles | store/migrate.go:117-121 | files named anything.sql, directories excluded, and no others |
| Migrate.Runner.Transact | store/migrate.go:85-101 | body and cursor move together or not at all, at whichever point it fails |
| Migrate.Runner.Migrate | store/migrate.go:33-80 | a bad name or a duplicate version is reported before anything is applied; otherwise the database ends as the ascending list applied from the cursor, up to the first failure |
| Migrate.RunThenFinish | store/migrate.go:66-79 | whatever one run got done, finishing it equals never having been interrupted; the cursor never decreases |
| Migrate.CrashResume | store/migrate.go:33-80 | any runs failing anywhere, then a success, give the database, cursor and commits of one uninterrupted run |
| Migrate.RunCommitsPrefix | store/migrate.go:66-101 | one run puts the bodies of a first part of what was pending into effect and commits them, each once and in order, and stops only at a fault or a body that fails |
| Migrate.SucceedsIff | store/migrate.go:66-101 | a run succeeds exactly when nothing pending meets a fault and every pending body runs through; the contents are then those bodies' effect one after the other |
| Migrate.PendingAscends | store/migrate.go:66-69 | what is pending ascends and is newer than the cursor |
| Migrate.RunsCommitOnce | store/migrate.go:66-78 | over any runs the commits ascend strictly, and the contents are the effect of exactly those bodies, each once |
| Migrate.OrderUnique | store/migrate.go:54-59 | distinct versions have one ascending order |
| Migrate.DirectoryOrderIrrelevant | store/migrate.go:34-54 | listing a directory in another order gives the same list to apply and rejects the same directories |
| ToolCalls.ToolCallAccumulator.Merge | llm/toolcall.go:24-50 | the map after a chunk, up to the first arguments that cannot be rendered |
| ToolCalls.ToolCallAccumulator.MergeDelta | llm/toolcall.go:26-46 | one delta; the entry is created and its id and name taken in even when the arguments cannot be rendered |
| ToolCalls.ToolCallAccumulator.Finalize | llm/toolcall.go:60-87 | the listed calls, and the map with the synthesised ids written back |
| ToolCalls.MergeMeans | llm/toolcall.go:34-46 | index by index: concatenated name and arguments, last non-empty id |
| ToolCalls.FinalizeMeans | llm/toolcall.go:52-87 | merging and finalising any stream equals the description by index, in ascending order, nameless calls dropped |
| ToolCalls.OneDelta | llm/toolcall.go:40-46 | a call streamed in one delta comes back as sent, its arguments the string or the rendered value |
| ToolCalls.SameByIndex | llm/toolcall.go:24-87 | streams that agree index by index finalise alike |
| ToolCalls.Rechunk | llm/toolcall.go:37-46 | cutting a delta in two anywhere changes nothing |
| ToolCalls.Commute | llm/toolcall.go:52-59 | deltas of different indices commute |
| ToolCalls.FinalizeTwice | llm/toolcall.go:81-84 | Finalize is idempotent, the ids it wrote back included |
| ToolCalls.SynthIdsDiffer | llm/toolcall.go:82 | synthesised ids of different indices differ |
| Turns.TurnBuilder.Flush | llm/bedrock/bedrock.go:354-363 | pending results become one user turn, if there are any |
| Turns.TurnBuilder.AddMessage | llm/vertex/vertex.go:433-446 | a user or assistant message flushes first, then adds a turn unless it is empty |
| Turns.TurnBuilder.AddResult | llm/vertex/vertex.go:522 | a tool result joins the pending ones |
| Turns.MeaningPreserved | llm/bedrock/bedrock.go:350-440 | the output's blocks in order, each with its side, are exactly the input's |
| Turns.NoEmptyTurn | llm/bedrock/bedrock.go:354-380 | no output message is empty |
| Turns.ResultHome | llm/vertex/vertex.go:414-424 | where in the output the block of a given tool result is |
| Turns.ResultsShareTurnIff | llm/bedrock/bedrock.go:350-353 | two results share an output message exactly when no user or assistant message lies between them |
| Translate.TranslateMessages | llm/bedrock/bedrock.go:365-440 | the loop both vendors run: the built turns, which say what the messages say, and the system texts, or the error of the first message that cannot be rendered |
| Translate.TranslationPreservesMeaning | llm/bedrock/bedrock.go:372-425 | for either vendor, the turns say exactly what the messages say, user and tool messages on the user side and assistant messages on the model side, block by block in order, in no empty message |
| Translate.SystemTexts | llm/bedrock/bedrock.go:367-370 | the system texts are the non-empty contents of the system messages, in order |
| Translate.ToolResultsShareIff | llm/vertex/vertex.go:410-525 | for either vendor, tool results share an output message exactly when no user or assistant message lies between them |
| Translate.EmptyMessageParts | llm/vertex/vertex.go:447-471 | two results with only an empty assistant message between them go out in two messages |
| Bedrock.BuildConverseInput | llm/bedrock/bedrock.go:338-440 | the turns and system texts for every history, or the first error; the turns say what the messages not ignored say |
| Bedrock.UserBlocks | llm/bedrock/bedrock.go:655-674 | a user message is its content and its parts in order, and fails exactly on a part that is neither text nor an inline image of a known format |
| Bedrock.AssistantBlocks | llm/bedrock/bedrock.go:388-417 | an assistant message adds its tool calls with their ids, names and parsed arguments, and fails also on arguments that do not parse |
| Bedrock.ResultBlocks | llm/bedrock/bedrock.go:708-741 | a tool message is one result for its call id, holding its content and parts, or its content alone, even empty |
| Vertex.IdsOfStream | llm/vertex/vertex.go:246-247 | one counter over a stream numbers every call, provided ids included |
| Vertex.SynthIdInjective | llm/vertex/vertex.go:345-350 | a synthesised id determines both name and index, whatever the name contains |
| Vertex.DistinctIdsIff | llm/vertex/vertex.go:241-247 | the ids of one stream are distinct exactly when no provided id repeats another or spells a synthesised one |
| Vertex.SynthesisedDistinct | llm/vertex/vertex.go:241-247 | a stream that provides no id has distinct ids |
| Vertex.ProvidedIdCanClash | llm/vertex/vertex.go:345-350 | a provided id equal to one synthesised later |
| Vertex.BuildIdToName | llm/vertex/vertex.go:395-405 | the last named call of each id |
| Vertex.NamesAreCalls | llm/vertex/vertex.go:393-405 | the map knows exactly the ids of named calls and gives each the name of one of them |
| Vertex.LastNameWins | llm/vertex/vertex.go:395-405 | each id has the name of the last named call of the history that carries it |
| Vertex.NameRecoveredIff | llm/vertex/vertex.go:393-405 | every call's name is recovered exactly when no two named calls share an id under different names |
| Vertex.SynthesisedNamesRecovered | llm/vertex/vertex.go:478-486 | it is recovered in every history of synthesised ids, counters restarting or not |
| Vertex.BuildVertexRequest | llm/vertex/vertex.go:387-530 | the contents and the system instruction's texts for every history, or the first error; the contents say what the messages not ignored say |
| Vertex.UserBlocks | llm/vertex/vertex.go:565-612 | a user message is its content and its parts in order: text, bytes with their MIME type, or a URI; it fails exactly on other parts |
| Vertex.AssistantBlocks | llm/vertex/vertex.go:449-468 | an assistant message adds its tool calls with their names and parsed arguments, and fails also on arguments that do not parse |
| Vertex.ResponseBlocks | llm/vertex/vertex.go:487-522 | a tool message is one response: its own JSON object, or its value or text under "content", with the bytes of its media parts; it fails exactly on a media part without bytes or MIME type |
| Vertex.MediaInOrder | llm/vertex/vertex.go:620-642 | the media parts are the image and document parts, in order |
| Vertex.ResponseCarriesCallName | llm/vertex/vertex.go:477-522 | end to end, the output block answering a call carries that call's name |
| InlineCalls.ParseFunctionXML | llm/inline_toolcall.go:102-125 | the parameter loop, with coercion and the nameless case |
| InlineCalls.ParseOneInline | llm/inline_toolcall.go:74-95 | the pseudo-XML shape first, then the JSON shape with its argument cases |
| InlineCalls.ParseInlineToolCalls | llm/inline_toolcall.go:36-70 | both passes and what is left of the text, for every text |
| InlineRoundTrip.CallRead | llm/inline_toolcall.go:97-101 | a printed call is read back as the call it stands for, parameters in order and coerced |
| InlineRoundTrip.ParserUndoesPrinter | llm/inline_toolcall.go:12-30 | prose interleaved with printed calls gives exactly those calls, numbered in order, and the prose without the markup |
| InlineRoundTrip.ParserUndoesBarePrinter | llm/inline_toolcall.go:57-67 | the same for calls printed without the wrapper |
| InlineRoundTrip.JsonBlockRead | llm/inline_toolcall.go:78-94 | a wrapped JSON call is read back with the prose around it: no arguments or null as an empty object, a JSON string as what it spells, anything else as it is |
| InlineRoundTrip.OpensLoosely | llm/inline_toolcall.go:32-33 | an opening tag in any case with white space around its equals sign and name |
| InlineRoundTrip.ClosesLoosely | llm/inline_toolcall.go:32-33 | a closing tag in any case with white space before its bracket |
| InlineRoundTrip.BadBlockIgnored | llm/inline_toolcall.go:47-51 | a block that is no call is passed over: the others are found and numbered as if it were not there |
| InlineRoundTrip.NoCallIff | llm/inline_toolcall.go:75-86 | a block is no call exactly when it holds neither a named function nor a named JSON call |
| InlineRoundTrip.AnyContent | llm/inline_toolcall.go:26-30 | for every text: unchanged when no call is found; ids numbered from 1 and distinct |
| Registry.Registry.Register | tools/registry.go:32-37 | the tool replaces any of its name, and the memo is dropped |
| Registry.Registry.Unregister | tools/registry.go:42-49 | exactly the named tools go, and the memo with them |
| Registry.Registry.List | tools/registry.go:60-68 | every registered tool, once |
| Registry.Registry.Filter | tools/registry.go:73-83 | a fresh registry with exactly the named tools that exist |
| Registry.Registry.Without | tools/registry.go:88-103 | a fresh registry with exactly the other tools |
| Registry.Registry.ToolDefs | tools/registry.go:114-151 | the listing of the present map, memoised; the map untouched |
| Registry.ListingIsExact | tools/registry.go:135-147 | a listing holds exactly one function definition for each registered tool, with its name, description and parameters, in strictly ascending name order |
| Registry.BeforeIsDictionary | tools/registry.go:134 | the order is the dictionary's: the first difference decides, a prefix comes first |
| Registry.LatestIsKept | tools/registry.go:31-37 | a tool is in the map exactly when it is the latest registered under its name |
| Registry.RegistrationOrderIrrelevant | tools/registry.go:109-111 | histories ending with the same tool for each name give the same listing |
| Registry.AnyOrderOfDistinctNames | tools/registry.go:109-111 | distinct tools may be registered in any order |
| Registry.NextInv | tools/registry.go:114-151 | every step of concurrent writers and listers keeps the memo right |
| Registry.MemoCoherent | tools/registry.go:114-151 | in every reachable state the memo is absent or fresh, and each finished ToolDefs returned the listing of the map at an instant during that call |
| Framing.ReadFull | ipc/ipc.go:79 | io.ReadFull over any chunking depends only on the bytes and on how the stream ends, closed or with another error |
| Framing.Write | ipc/ipc.go:57-72 | the whole frame, a part of it when the writer fails, or nothing when refused |
| Framing.Read | ipc/ipc.go:77-95 | the envelope or the exact error, and the bytes left, whatever the chunking |
| Framing.ReadExactly | ipc/ipc.go:77-95 | Read accepts exactly the streams that open with the frame of 1 byte to 8 MiB that decodes, and leaves what follows |
| Framing.BadLengthRefused | ipc/ipc.go:82-85 | a length of zero or above the limit is refused without reading on |
| Framing.PrefixOrders | ipc/ipc.go:65-66 | the prefix is big-endian: comparing prefixes byte by byte compares lengths |
| Framing.WholeMeans | ipc/ipc.go:74-76 | which frames lie wholly before a cut, and how many bytes are left over |
| Framing.CutStream | ipc/ipc.go:57-95 | a stream that ends at any byte, closed or broken, gives exactly the envelopes wholly before it, then the error the leftover bytes and the ending call for |
| Framing.CleanCloseIff | ipc/ipc.go:74-81 | the final error is a clean close exactly when the stream was closed and its length is that of the first j frames for some j |
| Framing.RoundTrip | ipc/ipc.go:54-95 | an uncut stream gives back every envelope in order, then a clean close |

## Left out

- StreamProtocol.NeverStranded: a consumer that stops reading without going through `Stream` is not modelled, because the code makes no promise for it.
- Registry.Registry.ToolDefs: names are ordered character by character, which for valid UTF-8 is Go's order by bytes; invalid UTF-8 is not modelled.
- Probe.ConnTracker.Set: the clock is a parameter.
- Migrate.Runner.Migrate: SQLite's 32-bit `user_version` is not modelled, so versions past 2^31-1 behave here as if the pragma held them; the text of a duplicate error names only the version.
- LoopGuard.DistinctShingles: the hash is a parameter, so the theorems hold for any hash; the ratio compared with 0.30 becomes 10 distinct < 3 total, which agrees on the 382 shingles of a full window.
- Retry.ChatBound: waits are in whole milliseconds and `Retry-After` is taken as already parsed and not overflowing.
- InlineCalls.ParseInlineToolCalls: the regular expressions are written out as searches, with white space at the ends of a group kept for the TrimSpace that follows; JSON validity, quoting and decoding are parameters.
- Framing.Read: the encoding of an envelope is a parameter with its decoding.
- Vertex.BuildVertexRequest: sampling settings, token limits, safety settings, thinking budgets and tool schemas are not modelled.
- Bedrock.BuildConverseInput: the check for an empty model name, inference settings, tool configuration and guardrails are not modelled; image formats are a parameter.
- MessageCodec.Receiver.UnmarshalJSON: JSON is a tree, so the text syntax, case-insensitive keys, repeated keys and the replacement of invalid UTF-8 are not modelled.
- Fields that never travel (`Synthetic`, `Ignored`, `Reasoning`): they are outside the wire form, as in the source.
- HTTP, TLS, DNS, timeouts as durations, error texts and the classification of network errors: an attempt's outcome is a parameter.
- Goroutine panics, debug logging and metrics.
- Vendor SDK calls and credentials, `netsec`, `paths`, schema builders, argument extractors and token estimates: thin wrappers or single-branch facts.
- The bodies of SQL migrations: an opaque function that succeeds or changes nothing.
- The cached-token copy into usage events: a field copy.
