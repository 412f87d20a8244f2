# Verification of the agent event pipeline

The adapters of the repository turn a child process's output into one ordered, terminated stream of
events, and the web client replays that stream over a socket that can fail. This project models
those layers and states what they promise for every input, every order of callbacks and every run.

- **Incremental parsers.** `Lines`, `HermesProtocol`, `HermesChunking`, `HermesTrace`,
  `HermesRefusals` (bytes), `StreamParsing`, `StreamChunking`, `StreamOutcomes` (text, shared by
  Codex and Claude Code). A parser class is tied
  to a fold over the split stream; chunk independence is an equivalence with its exact condition.
- **Event kit and mappers.** `Events`, `AsyncQueues`, `CodexMapping`, `ClaudeMapping`,
  `FilePathSafety`.
- **Run lifecycles.** `Timers` is a virtual clock that holds every armed timer, named or not, and
  cannot pass a deadline. On it: `CodexLifecycle` (with `CodexSafety`, `CodexGuarantees`,
  `CodexChunking`, `CodexStory`, `CodexOutcome`, `CodexWatch`, and the class in `CodexRuns`),
  `HermesExecution` (with `HermesExecutionSafety`, `HermesExecutionGuarantees`,
  `HermesExecutionHygiene`, `HermesExecutionOutcome`, and the class in `HermesExecutionRuns`),
  `HermesRunning` (with its `Safety`, `Guarantees`, `Outcome` and the class in `HermesRuns`), and
  `BoundedProcess`.
- **Client.** `TaskEvents` (with `Safety`, `Guarantees`, `Progress` and the class in `TaskEventsClients`), and
  `EndToEnd`, which joins the adapters' logs to the reader.
- **Search.** `ExecutableResolver`.

Each lifecycle has one shape. A datatype holds the state; `Step` says what one callback does, and a
callback that cannot happen changes nothing; `Exec` and `After` follow any sequence of callbacks. A
class has the program's fields and methods, and each method is proved to take the class's state
where `Step` takes the datatype. The promises are lemmas about `After`, for all sequences. They say
what never happens (`Safety`, `Guarantees`) and also what does: which callback ends, kills, settles,
retries or reports, with which outcome, in terms of what happened and what was received rather than of
`Step` (`Story`, `Outcome`, `Watch`, `Progress`).

Three statements turned out false as one would first write them, and are given with their exact
conditions: chunk independence of both parsers (a line that fits only by its stripped CR, the total
limit checked per chunk, a dropped oversized rest), suppression of repeated file changes (the key is
a concatenation, so different changes can share it), and "no timer after settlement" of the raw
Hermes run (a cancellation during a failure's cleanup overwrites a handle).

## Model

| member | source | states |
|---|---|---|
| HermesProtocol.BoundedLimit | adapters/hermes-router/src/hermes-protocol.ts:98-102 | A configured limit is used when it is a positive integer and can only tighten the built-in maximum |
| HermesProtocol.HermesJsonlParser.constructor | adapters/hermes-router/src/hermes-protocol.ts:121-129 | A new parser has seen nothing and carries the three bounded limits |
| HermesProtocol.HermesJsonlParser.Push | adapters/hermes-router/src/hermes-protocol.ts:135-174 | The byte loop with its partial-line buffer, CR stripping, per-chunk total check and tail check does what splitting buffer plus chunk on LF and folding the line check does; it returns exactly the events it added and the sticky error |
| HermesProtocol.HermesJsonlParser.TakeClosedLine | adapters/hermes-router/src/hermes-protocol.ts:152-162 | One closed line: strip one CR, then either one more event or a permanent error with an emptied buffer |
| HermesProtocol.HermesJsonlParser.ParseLine | adapters/hermes-router/src/hermes-protocol.ts:201-295 | The line checks in the source's order with the source's error codes; only an accepted line changes the parser |
| HermesProtocol.HermesJsonlParser.RecordFailure | adapters/hermes-router/src/hermes-protocol.ts:297-305 | A failure is remembered and the buffer dropped |
| HermesProtocol.HermesJsonlParser.Finish | adapters/hermes-router/src/hermes-protocol.ts:176-199 | End of stream: invalid UTF-8 in the rest, truncation, missing terminal event, or success, in that order |
| HermesChunking.ChunkIndependence | adapters/hermes-router/src/hermes-protocol.ts:135-174 | For any parser that has not failed and any bytes to come: all chunkings give the same events, buffer and error if and only if the bytes are chunk-safe. Within the total limit that means no line is reached that fits only because its CR is stripped; beyond it, only one short unfinished line before the limit |
| HermesChunking.PushIsReference | adapters/hermes-router/src/hermes-protocol.ts:147-173 | One push within the total limit equals the reference that splits everything on LF first |
| HermesChunking.PushesAreReference | adapters/hermes-router/src/hermes-protocol.ts:135-174 | So does any number of pushes, unless they stop on a line saved by its stripped CR |
| HermesChunking.PushesStayOpen | adapters/hermes-router/src/hermes-protocol.ts:139-173 | While no error has occurred, buffer and byte total stay within their limits, the buffer holds no LF, and the total counts every byte received |
| HermesChunking.SavedLineBreaks | adapters/hermes-router/src/hermes-protocol.ts:154-166 | A reachable line of limit plus one bytes ending in CR is accepted whole but refused when cut before its LF |
| HermesChunking.OverLimitBreaks | adapters/hermes-router/src/hermes-protocol.ts:139-145 | Because the total is checked before a chunk's lines are parsed, a stream over the limit with a closed or oversized line before it is treated differently by different cuts |
| HermesChunking.OverLimitSafe | adapters/hermes-router/src/hermes-protocol.ts:139-145 | A stream over the limit with nothing but one short unfinished line before it ends the same way for every cut |
| HermesTrace.ParseSound | adapters/hermes-router/src/hermes-protocol.ts:135-295 | If all pushes and finish succeed, the bytes are within the limit and spell, line by line, a well-formed trace: one run id, one runtime version, numbers 0..n-1, started first and only first, one terminal event and it is last; and the events returned are that trace |
| HermesTrace.ParseComplete | adapters/hermes-router/src/hermes-protocol.ts:135-295 | Conversely every such stream within the limits is parsed to its trace under every chunking that cannot meet a saved line |
| HermesTrace.ParseExactlyTraces | adapters/hermes-router/src/hermes-protocol.ts:135-295 | Both directions as one equivalence |
| HermesTrace.RoundTrip | adapters/hermes-router/src/hermes-protocol.ts:135-295 | Printing any well-formed trace and feeding it in any chunks returns the trace |
| HermesTrace.EventsArePrefix | adapters/hermes-router/src/hermes-protocol.ts:201-295 | For any bytes in any chunks, also failing ones, the events returned so far form a well-formed trace cut short |
| HermesRefusals.ErrorIsFirstRefusal | adapters/hermes-router/src/hermes-protocol.ts:201-295 | Within the limits, the error of a stream in any chunks is the one its first refused line deserves, and the events returned are those of the lines before it |
| HermesRefusals.LineRefused | adapters/hermes-router/src/hermes-protocol.ts:201-289 | Which line deserves which error after the events accepted so far, and that a line without a reason is accepted |
| Lines.SplitThenJoin | adapters/codex/src/codex-stream-parser.ts:51-56 | Splitting on a separator loses nothing and leaves no separator inside a piece |
| Lines.JoinThenSplit | adapters/codex/src/codex-stream-parser.ts:51-56 | Splitting is the inverse of joining separator-free pieces |
| Lines.SplitAppend | adapters/codex/src/codex-stream-parser.ts:51-56 | Cutting a stream anywhere affects only the unfinished piece |
| StreamParsing.StreamParser.constructor | adapters/codex/src/codex-stream-parser.ts:41-44 | A fresh parser with the given or default limits |
| StreamParsing.StreamParser.ProcessLine | adapters/codex/src/codex-stream-parser.ts:82-113 | One line: CR, blank, latch, count, length, JSON and classification in the source's order |
| StreamParsing.StreamParser.Push | adapters/codex/src/codex-stream-parser.ts:51-72 | Split, keep the last piece, report each closed line, drop an oversized rest: equal to one fold over the split text |
| StreamParsing.StreamParser.Flush | adapters/codex/src/codex-stream-parser.ts:75-80 | A rest that is not blank is reported once as truncated; the buffer is emptied |
| StreamOutcomes.EveryLineIsReported | adapters/codex/src/codex-stream-parser.ts:51-113 | For a chunk-safe text in any chunks, the outcomes are one for each line that is not blank, in order and less its CR: its messages, its first 100 units if it is not JSON, its reason if invalid, oversized over the limit, limit reached from line maxMessages + 1 on; then one more if the unfinished line is too long. Stated from the text, without the parser's own step |
| StreamOutcomes.OneTextReported | adapters/claude-code/src/stream-parser.ts:51-116 | The same for any text at all that arrives in one chunk |
| StreamOutcomes.RestIsReported | adapters/codex/src/codex-stream-parser.ts:75-80 | The end of the text adds a truncation exactly if the unfinished line is not blank |
| StreamChunking.PushesAreReference | adapters/claude-code/src/stream-parser.ts:51-116 | Every chunking of a safe text gives the outcomes, counter, latch and buffer of the split-then-fold reference |
| StreamChunking.ChunkIndependence | adapters/codex/src/codex-stream-parser.ts:51-113 | Chunking is irrelevant if and only if every closed line is at most the line limit and the unfinished one at most one over it |
| StreamChunking.LongPieceBreaks | adapters/codex/src/codex-stream-parser.ts:66-69 | The converse: for any piece over that length there is a cut after which dropping the rest makes the results differ for good |
| Events.EventFactory.Build | packages/agent-adapter-sdk/src/event-factory.ts:83-95 | Every event takes the next number, starting from 0 |
| Events.TerminalEventGuard.GuardEvent | packages/agent-adapter-sdk/src/terminal-guard.ts:49-57 | The first terminal event is remembered; everything after it is refused and changes nothing |
| Events.Emit | packages/agent-adapter-sdk/src/terminal-guard.ts:49-57 | Building and guarding an event: a number is used up whether or not the guard lets it through |
| Events.Cut | packages/agent-adapter-sdk/src/terminal-guard.ts:49-57 | What the guard lets through is everything up to and including the first terminal event |
| Events.DeliveredIsContiguous | packages/agent-adapter-sdk/src/event-factory.ts:83-95 | Whatever is submitted, what is delivered is numbered 0..n-1 without a hole, is exactly the submissions up to the first terminal one, and ends with it |
| AsyncQueues.AsyncQueue.Push | adapters/codex/src/async-queue.ts:14-22 | Keeps every promise equal to what the history of operations says it received: the k-th call gets the k-th push made before close, or done; items and waiters are never both present |
| AsyncQueues.AsyncQueue.Close | adapters/codex/src/async-queue.ts:25-32 | Closing serves every waiter with done, loses no buffered item, and keeps the matching |
| AsyncQueues.AsyncQueue.Next | adapters/codex/src/async-queue.ts:34-45 | Hands out the next promise and keeps the matching |
| AsyncQueues.MatchingIsFinal | adapters/codex/src/async-queue.ts:14-45 | No later operation changes what a call has received; after close nothing is added |
| AsyncQueues.PushesBeforeClose | adapters/codex/src/async-queue.ts:14-22 | Before a close the deliverable items are all pushes in order: nothing lost or duplicated |
| CodexMapping.EventMapper.MapMessage | adapters/codex/src/event-mapper.ts:41-107 | One message: the correlation sets move as specified and its event, if any, is numbered and guarded; a refusal of the guard is passed on |
| CodexMapping.StateIsHistory | adapters/codex/src/event-mapper.ts:70-107 | After any message sequence the three sets hold exactly the ids started, the ids completed after a start, and the keys of the safe file changes |
| CodexMapping.OutputIsHistory | adapters/codex/src/event-mapper.ts:70-107 | What each message of every kind produces, stated from the message history alone |
| CodexMapping.ToolProtocol | adapters/codex/src/event-mapper.ts:70-94 | At most one start and one completion per item, a completion only after the start was emitted |
| CodexMapping.NoRepeatedChange | adapters/codex/src/event-mapper.ts:96-107 | The same item, path and kind is reported once |
| CodexMapping.KeysCollide | adapters/codex/src/event-mapper.ts:102-104 | The concatenated suppression key is not injective: two keys are equal exactly for the same change or for an id and path that differ by moving a part across a colon |
| CodexMapping.DistinctChangeLost | adapters/codex/src/event-mapper.ts:102-104 | A concrete pair of different changes of which the second is dropped |
| CodexMapping.ChangeDroppedIff | adapters/codex/src/event-mapper.ts:96-107 | Exactly when a safe change is dropped: an earlier safe change is the same, or is this one moved across a colon |
| ClaudeMapping.EventMapper.MapToolUse | adapters/claude-code/src/event-mapper.ts:69-75 | A tool use records name and path under its id, the latest one winning, and starts the tool |
| ClaudeMapping.EventMapper.MapToolResult | adapters/claude-code/src/event-mapper.ts:77-121 | A result completes a known, not yet completed use once, and reports its file only on success and if the path is safe |
| ClaudeMapping.EventMapper.Translate | adapters/claude-code/src/event-mapper.ts:40-67 | Each message kind and the bodies it stands for, in order, with at most ten denials before the outcome |
| ClaudeMapping.EventMapper.EmitAll | adapters/claude-code/src/event-mapper.ts:55-65 | Bodies are numbered and guarded in order; a refusal ends the call |
| ClaudeMapping.EventMapper.MapMessage | adapters/claude-code/src/event-mapper.ts:40-67 | Before the run has ended, every body of the message comes back numbered; afterwards the guard's refusal does |
| ClaudeMapping.StateIsHistory | adapters/claude-code/src/event-mapper.ts:69-105 | After any message sequence, completed ids, names and pending paths are what the history says |
| ClaudeMapping.ResultIsHistory | adapters/claude-code/src/event-mapper.ts:77-121 | What a result produces, stated from the message history alone |
| ClaudeMapping.OtherOutputs | adapters/claude-code/src/event-mapper.ts:40-75 | What every other message produces, written out: text, tool start, and a result behind its first ten denials |
| ClaudeMapping.ToolProtocol | adapters/claude-code/src/event-mapper.ts:69-121 | At most one completion per id, only after a start for that id was emitted |
| ClaudeMapping.FileChangeNeedsSuccess | adapters/claude-code/src/event-mapper.ts:104-118 | A file change comes only together with the completion of a successful use that named a file |
| ClaudeMapping.OnlyLastIsTerminal | adapters/claude-code/src/event-mapper.ts:55-65 | A message ends the run, if at all, with its last event, so the guard never refuses part of it |
| CodexRuns.CodexRun.constructor | adapters/codex/src/codex-run.ts:143-174 | A new run is idle with nothing armed, queued or recorded |
| CodexRuns.CodexRun.Begin | adapters/codex/src/codex-run.ts:200-224 | First iteration: cancelled at once, gated, or launched; later iterations start nothing |
| CodexRuns.CodexRun.AfterGate | adapters/codex/src/codex-run.ts:224-249 | The gate's answer, with a recorded cancellation taking precedence over it |
| CodexRuns.CodexRun.Launch | adapters/codex/src/codex-run.ts:251-350 | Max-duration timer, spawn, started event, silence timers, prompt; each failure on the way as in the source |
| CodexRuns.CodexRun.Supervise | adapters/codex/src/codex-run.ts:270-337 | A spawned process is announced, watched for silence and listened to |
| CodexRuns.CodexRun.Cancel | adapters/codex/src/codex-run.ts:192-198 | Only the first cancellation is recorded; a started run begins its termination |
| CodexRuns.CodexRun.BeginCancellationSequence | adapters/codex/src/codex-run.ts:524-528 | Nothing once the run has ended, else mark and terminate |
| CodexRuns.CodexRun.TerminateProcess | adapters/codex/src/codex-run.ts:535-561 | Kill and arm the grace timer, once per run, and only if there is a process |
| CodexRuns.CodexRun.FailAndTerminateProcess | adapters/codex/src/codex-run.ts:530-533 | Fail, then terminate |
| CodexRuns.CodexRun.FinishWith | adapters/codex/src/codex-run.ts:563-586 | The outcome is queued and resolves the completion unless the guard refuses it; the queue is closed either way |
| CodexRuns.CodexRun.FinishFailed | adapters/codex/src/codex-run.ts:577-586 | The failing case of it |
| CodexRuns.CodexRun.FinishCancelled | adapters/codex/src/codex-run.ts:563-575 | The cancelled case, followed by cleanup |
| CodexRuns.CodexRun.Cleanup | adapters/codex/src/codex-run.ts:588-613 | All five timers disarmed and their handles forgotten, listeners detached |
| CodexRuns.CodexRun.ArmInactivityTimer | adapters/codex/src/codex-run.ts:409-423 | Re-armed on output, never after the run has ended |
| CodexRuns.CodexRun.OnStdoutData | adapters/codex/src/codex-run.ts:296-300 | Output clears the startup timer, re-arms the inactivity timer and is parsed |
| CodexRuns.CodexRun.HandleStdoutChunk | adapters/codex/src/codex-run.ts:432-437 | Every outcome the parser reports for the chunk is handled, none after the run has ended |
| CodexRuns.CodexRun.HandleOutcomes | adapters/codex/src/codex-run.ts:434-436 | The loop over outcomes equals the fold of the single step |
| CodexRuns.CodexRun.HandleParserOutcome | adapters/codex/src/codex-run.ts:454-490 | Each outcome kind; malformed lines are fatal from the sixth on |
| CodexRuns.CodexRun.HandleMessages | adapters/codex/src/codex-run.ts:456-461 | The message loop with its early return equals the fold in which an ended run ignores messages |
| CodexRuns.CodexRun.HandleMessage | adapters/codex/src/codex-run.ts:457-460 | A message of a live run is mapped, queued, and ends the run if terminal |
| CodexRuns.CodexRun.DispatchMappedEvent | adapters/codex/src/codex-run.ts:439-452 | A mapped event is queued; a terminal one clears the inactivity timer, resolves the completion and closes the queue |
| CodexRuns.CodexRun.OnStdoutEnd | adapters/codex/src/codex-run.ts:307-311 | End of stdout stops the drain timer and tries to finalise |
| CodexRuns.CodexRun.OnExit | adapters/codex/src/codex-run.ts:339-349 | Exit is recorded, waits for stdout at most the drain period, and tries to finalise |
| CodexRuns.CodexRun.TryFinalizeAfterExit | adapters/codex/src/codex-run.ts:492-522 | With exit and end both known: flush, then the earlier outcome, cancellation, missing result or exit code decides, and everything is released |
| CodexRuns.CodexRun.OnProcessError | adapters/codex/src/codex-run.ts:287-292 | A process error fails the run |
| CodexRuns.CodexRun.OnStdinError | adapters/codex/src/codex-run.ts:361-370 | A stdin error fails the run once, never after its end |
| CodexRuns.CodexRun.OnTimer | adapters/codex/src/codex-run.ts:251-285 | What each of the five timers does when it rings |
| CodexGuarantees.OneTerminal | adapters/codex/src/codex-run.ts:439-586 | Under every order of events: the queue is one well-formed log, closed exactly when the completion has a value; that value is the terminal event, is last in the log, and neither ever changes again |
| CodexGuarantees.EndsInTime | adapters/codex/src/codex-run.ts:251-258 | A launched run that has not ended has its max-duration timer armed, so time cannot pass launch plus maximum duration before the end |
| CodexGuarantees.TouchesProcessOnce | adapters/codex/src/codex-run.ts:535-561 | Over a whole run at most one spawn, one kill-then-grace sequence and one forced kill, none without the one before |
| CodexGuarantees.NoSpawnAfterCancel | adapters/codex/src/codex-run.ts:210-249 | A cancellation recorded before the gate result is handled means no process is ever spawned or killed, and the only event is that cancellation |
| CodexGuarantees.SilentAfterExit | adapters/codex/src/codex-run.ts:492-522 | Once exit and end of stdout, or its drain timer, are in: the run is over, no timer is armed then or ever again, and nothing more is killed |
| CodexOutcome.ExitDecides | adapters/codex/src/codex-run.ts:492-522 | A run that nothing has ended, with stdout ending on a complete line, is ended by exit and end of stdout: as cancelled by the first cancellation, with its origin and reason, if there was one; else as a missing result exactly for exit code 0, as an unexpected exit otherwise |
| CodexOutcome.EndsBecause | adapters/codex/src/codex-run.ts:251-349 | Every ending but stdout's own: which callback ends a run that has not ended, with which event, and that no other does |
| CodexOutcome.StartDecides | adapters/codex/src/codex-run.ts:210-294 | What first iteration, gate and launch make of the log, and whether a process is spawned, given the first cancellation |
| CodexOutcome.CancelIsHistory | adapters/codex/src/codex-run.ts:192-198 | What the run remembers of cancellations is the first one in its history, and a running one has acted on it |
| CodexStory.LogIsToldByText | adapters/codex/src/codex-run.ts:432-490 | The log as a function of text: the start, the events of the messages on the lines heard before the end, up to the first line that ends a run, and then that line's terminal event or, if no line calls for one, the one other cause's. In particular a reported success that comes first makes the run completed with its summary |
| CodexStory.LogIsTold | adapters/codex/src/codex-run.ts:439-490 | The same in terms of what the parser reported, with no condition on the text |
| CodexStory.ParserHeard | adapters/codex/src/codex-run.ts:296-311 | The parser is what the texts heard before the end make of it, flushed exactly if the run was still open when exit and end of stdout were in |
| CodexWatch.KilledFor | adapters/codex/src/codex-run.ts:524-561 | Exactly when the process is killed (first accepted cancellation, startup or duration exceeded, silence, lost prompt, broken stream) and when it is forced; nothing else touches it and nothing spawns another |
| CodexWatch.WatchdogsAreSet | adapters/codex/src/codex-run.ts:278-349 | At every moment: the inactivity timer is set for the last output plus its period until the end, the startup timer for the launch plus its period exactly while nothing has stirred, the drain timer after the exit, the grace timer after a kill |
| CodexWatch.ListensToTheEnd | adapters/codex/src/codex-run.ts:588-613 | A run with a process listens to it until exit and end of stdout are both in |
| CodexWatch.TimersKeepTime | adapters/codex/src/codex-run.ts:251-559 | Every armed timer was set for exactly the duration of its kind |
| CodexGuarantees.Reachable | adapters/codex/src/codex-run.ts:106-614 | The invariant behind these holds in every reachable state |
| CodexChunking.LogIsChunkIndependent | adapters/codex/src/codex-run.ts:432-490 | From any reachable moment while stdout is attached, two ways of cutting the same safe text give the same log, closing and completion |
| CodexChunking.FeedIsOutcomes | adapters/codex/src/codex-run.ts:432-490 | Feeding chunks acts on the log as handling the parser's outcomes for the whole text does |
| CodexOutcome.CompletedMeansReported | adapters/codex/src/codex-run.ts:454-522 | A run is completed successfully only with a summary that a parsed stdout message reported |
| HermesExecution.BoundedDuration | adapters/hermes-router/src/execution-transport.ts:126-130 | A configured duration can only shorten the built-in one; negative or non-finite ones are ignored |
| HermesExecutionRuns.HermesExecutionRun.constructor | adapters/hermes-router/src/execution-transport.ts:282-414 | Construction starts the run: input check, spawn, prompt, and the run timer whatever became of the prompt |
| HermesExecutionRuns.HermesExecutionRun.OnStdoutData | adapters/hermes-router/src/execution-transport.ts:232-255 | Bytes go through the parser, its events into the queue, its error into a failure |
| HermesExecutionRuns.HermesExecutionRun.EnqueueAll | adapters/hermes-router/src/execution-transport.ts:244-253 | Events are queued in order and a terminal one closes the queue |
| HermesExecutionRuns.HermesExecutionRun.OnStdoutEnd | adapters/hermes-router/src/execution-transport.ts:257-267 | The first end of an unsettled run finishes the parser |
| HermesExecutionRuns.HermesExecutionRun.FinishStdout | adapters/hermes-router/src/execution-transport.ts:428-436 | End of stdout or the drain timer: parser error, or completion if the exit is known |
| HermesExecutionRuns.HermesExecutionRun.OnStdinError | adapters/hermes-router/src/execution-transport.ts:273-280 | A stdin error begins a failure |
| HermesExecutionRuns.HermesExecutionRun.OnProcessError | adapters/hermes-router/src/execution-transport.ts:385-392 | A process error settles the run at once |
| HermesExecutionRuns.HermesExecutionRun.OnExit | adapters/hermes-router/src/execution-transport.ts:416-437 | Exit: settle a pending failure, complete if stdout has ended, else wait for it at most the drain period |
| HermesExecutionRuns.HermesExecutionRun.MaybeComplete | adapters/hermes-router/src/execution-transport.ts:439-476 | Resolves only with a terminal event, no signal and a matching exit code; otherwise an inconsistent exit is a failure |
| HermesExecutionRuns.HermesExecutionRun.BeginFailure | adapters/hermes-router/src/execution-transport.ts:478-517 | The first failure closes the queue and either settles or starts a cleanup chain, unless one is under way |
| HermesExecutionRuns.HermesExecutionRun.FailImmediately | adapters/hermes-router/src/execution-transport.ts:519-523 | Fail and settle without cleanup |
| HermesExecutionRuns.HermesExecutionRun.SettleFailure | adapters/hermes-router/src/execution-transport.ts:525-538 | The completion is rejected once, with the failure recorded |
| HermesExecutionRuns.HermesExecutionRun.ClearTimersAndListeners | adapters/hermes-router/src/execution-transport.ts:540-548 | The timers named by the four handles are disarmed, and no others |
| HermesExecutionRuns.HermesExecutionRun.Cancel | adapters/hermes-router/src/execution-transport.ts:313-352 | Cancelling once, before the terminal event, starts a cleanup chain even if one is under way, whose handle is then lost |
| HermesExecutionRuns.HermesExecutionRun.OnTimer | adapters/hermes-router/src/execution-transport.ts:327-348 | What each timer does when it rings, in a chain begun by cancellation or by failure |
| HermesExecutionGuarantees.SettlesInTime | adapters/hermes-router/src/execution-transport.ts:313-537 | While unsettled, some timer is armed within start + max(R + C + F, R + D), which time therefore cannot pass; and between exit and settlement no failure is pending |
| HermesExecutionGuarantees.SettlesOnce | adapters/hermes-router/src/execution-transport.ts:439-538 | Once settled, neither settlement nor delivered events ever change |
| HermesExecutionGuarantees.ResolvedIsSound | adapters/hermes-router/src/execution-transport.ts:439-476 | Success means: all bytes received spell a well-formed trace that was delivered event by event, no signal, and a non-zero exit code exactly for a reported failure |
| HermesExecutionGuarantees.DeliveredIsOrderly | adapters/hermes-router/src/execution-transport.ts:232-255 | Whatever happens, the delivered events are a well-formed trace cut short |
| HermesExecutionGuarantees.CancelAfterTerminalIsIgnored | adapters/hermes-router/src/execution-transport.ts:313-316 | After the raw terminal event a cancellation makes no difference to anything that follows |
| HermesExecutionGuarantees.Reachable | adapters/hermes-router/src/execution-transport.ts:209-548 | The invariant behind these holds in every reachable state |
| HermesExecutionOutcome.SettlesRight | adapters/hermes-router/src/execution-transport.ts:416-476 | Exactly when a run succeeds: one that has not failed is settled by the second of exit and end of stdout, in either order or by the drain timer; it is resolved with the last event and the exit code if and only if all bytes spell a trace, there was no signal, and the code is zero exactly unless that event reports a failure; otherwise it is rejected with the error that fits |
| HermesExecutionOutcome.FailsFor | adapters/hermes-router/src/execution-transport.ts:232-280 | Every other callback on a run that has not failed: which trouble rejects it, which begins a failure and with which code, which terminates or forces the process, and that nothing else does |
| HermesExecutionOutcome.FailingWaits | adapters/hermes-router/src/execution-transport.ts:327-349 | A failing run keeps its first failure until exit, force or process error settles it; what terminates and forces the process meanwhile |
| HermesExecutionOutcome.LaunchOutcome | adapters/hermes-router/src/execution-transport.ts:354-413 | How a run begins, including the run timer set for exactly its duration |
| HermesExecutionOutcome.ChunksAreReceived | adapters/hermes-router/src/execution-transport.ts:232-243 | Everything that arrives while the run is open reaches the parser, in order |
| HermesExecutionOutcome.TimersKeepTime | adapters/hermes-router/src/execution-transport.ts:327-436 | Every armed timer was set for exactly the duration of its kind |
| HermesExecutionHygiene.OneChainLeavesNothing | adapters/hermes-router/src/execution-transport.ts:478-548 | A run terminates its process at most twice, the second time only for a cancellation; with at most one, no timer handle is ever lost and none is armed after settlement |
| HermesExecutionHygiene.SecondChainIsLateCancel | adapters/hermes-router/src/execution-transport.ts:313-352 | The second termination happens exactly when a cancellation is accepted while a failing process has not exited |
| HermesExecutionHygiene.StraysSurvive | adapters/hermes-router/src/execution-transport.ts:540-543 | The step that settles a run leaves armed exactly the timers whose handles were overwritten, so none if and only if there were none but the one ringing |
| HermesExecutionHygiene.LateCancelLeaks | adapters/hermes-router/src/execution-transport.ts:327-351 | A concrete run that has settled with the failure's forgotten cleanup timer still armed |
| HermesRuns.HermesRun.constructor | adapters/hermes-router/src/hermes-run.ts:69-81 | A signal already aborted counts as a cancellation by the system |
| HermesRuns.HermesRun.Cancel | adapters/hermes-router/src/hermes-run.ts:99-105 | Recorded once, not after the end or the raw terminal event, and passed on to a raw run that exists |
| HermesRuns.HermesRun.Begin | adapters/hermes-router/src/hermes-run.ts:107-132 | First iteration: cancelled, could not start, or streaming |
| HermesRuns.HermesRun.Translate | adapters/hermes-router/src/event-mapper.ts:82-138 | Each raw kind is handed out as exactly what its payload decodes to, field by field, a reportable path with slashes; an event that conveys nothing has no body |
| HermesRuns.HermesRun.OnRawEvent | adapters/hermes-router/src/hermes-run.ts:135-145 | A terminal raw event is only noted; any other is mapped and handed out |
| HermesRuns.HermesRun.OnRawSettled | adapters/hermes-router/src/hermes-run.ts:147-165 | The raw completion is mapped and ends the run; its rejection goes to the error handling |
| HermesRuns.HermesRun.HandleError | adapters/hermes-router/src/hermes-run.ts:149-169 | End already known, local cancellation, mapping error with a cancelled raw run, or transport failure, in that order |
| HermesRuns.HermesRun.FinishBody | adapters/hermes-router/src/hermes-run.ts:182-199 | A terminal event that the guard lets through ends the run |
| HermesRuns.HermesRun.FinishEvent | adapters/hermes-router/src/hermes-run.ts:172-176 | The completion resolves with the event handed out last |
| HermesRunningGuarantees.OneTerminal | adapters/hermes-router/src/hermes-run.ts:107-199 | For every interleaving with the raw run: the events are one well-formed log, the completion has a value exactly when the generator has ended, that value is the last event, and nothing changes afterwards |
| HermesRunningGuarantees.CompletedIsSound | adapters/hermes-router/src/hermes-run.ts:134-170 | A run is reported completed only if the raw run resolved with a raw completion, exit code 0, no signal, and stdout spelled one trace; every event of the log is what the trace's event of the same number conveys |
| HermesRunningGuarantees.CancelAfterRawTerminal | adapters/hermes-router/src/hermes-run.ts:99-105 | Once the raw terminal event has been seen, a local cancellation changes nothing, whatever follows |
| HermesRunningGuarantees.CancelledAfterRawTerminal | adapters/hermes-router/src/hermes-run.ts:147-154 | A cancelled outcome after that moment is the raw run's own |
| HermesRunning.TranslationConveys | adapters/hermes-router/src/event-mapper.ts:82-138 | The translation of a raw event is what it conveys, with all bodies written out; unreadable payloads and unreportable paths have none |
| HermesRunningOutcome.HandedOutIsConveyed | adapters/hermes-router/src/hermes-run.ts:134-145 | At every moment the events handed out are what the first raw events convey, one for one, in order and numbered |
| HermesRunningOutcome.ResolvedRunEnds | adapters/hermes-router/src/hermes-run.ts:134-148 | If the raw run resolved and every event is readable, the run ends with what the terminal event conveys, also after a cancellation |
| HermesRunningOutcome.SettledRunEnds | adapters/hermes-router/src/hermes-run.ts:134-169 | The ending once the raw run has settled, exactly: an unreadable event first, then the raw terminal event, then the cancellation, then a transport failure |
| HermesRunningOutcome.BeginDecides | adapters/hermes-router/src/hermes-run.ts:107-132 | What the first iteration does, given a cancellation or a failing start |
| HermesRunningOutcome.CancelIsPassedOn | adapters/hermes-router/src/hermes-run.ts:99-105 | Which cancellation counts, that it is remembered, and that it reaches the raw run |
| HermesRunningOutcome.UnreadableCancelsRaw | adapters/hermes-router/src/hermes-run.ts:156-165 | An unreadable event that no cancellation excuses cancels the raw run and ends the run as invalid once that has settled |
| HermesRunningGuarantees.ResumesFinish | adapters/hermes-router/src/hermes-run.ts:134-170 | Once the raw run has settled, a consumer reaches the end after at most the remaining events plus three steps |
| FilePathSafety.ParseExactly | adapters/hermes-router/src/file-path-safety.ts:5-30 | Exactly which paths pass: bounded, without NUL or drive prefix, every segment an ordinary name; the result is the path with slashes; the separate tests for absolute paths decide nothing more |
| FilePathSafety.ParseIsIdempotent | adapters/hermes-router/src/file-path-safety.ts:5-30 | Normalising twice is normalising once |
| FilePathSafety.AcceptedPathsStayInside | adapters/hermes-router/src/file-path-safety.ts:18-29 | Walking any leading part of an accepted path only goes down from the start, and never through .git |
| TaskEventsClients.TaskEventsClient.ClearReconnectTimer | apps/web/hooks/use-task-events.ts:99-104 | Disarms the timer the reference names |
| TaskEventsClients.TaskEventsClient.CloseCurrentSocket | apps/web/hooks/use-task-events.ts:107-118 | Detaches the socket the reference names |
| TaskEventsClients.TaskEventsClient.ScheduleReconnect | apps/web/hooks/use-task-events.ts:129-148 | Spends one of five attempts on a timer that captures the offset, or gives up |
| TaskEventsClients.TaskEventsClient.Connect | apps/web/hooks/use-task-events.ts:150-158 | Replaces the socket by one opened at the given offset in the current generation |
| TaskEventsClients.TaskEventsClient.OnOpen | apps/web/hooks/use-task-events.ts:160-172 | Opening alone does not restore the retry budget |
| TaskEventsClients.TaskEventsClient.OnMessage | apps/web/hooks/use-task-events.ts:174-237 | Each verdict on an incoming frame and what the client does with it |
| TaskEventsClients.TaskEventsClient.AcceptEvent | apps/web/hooks/use-task-events.ts:188-213 | An accepted event fixes the identity, is appended, restores the budget, and the first terminal one is notified |
| TaskEventsClients.TaskEventsClient.RefuseStream | apps/web/hooks/use-task-events.ts:221-235 | Conflict, mismatch or nonsense stops the client |
| TaskEventsClients.TaskEventsClient.OnClose | apps/web/hooks/use-task-events.ts:245-285 | Which close codes complete, retry or stop |
| TaskEventsClients.TaskEventsClient.OnReconnectTimer | apps/web/hooks/use-task-events.ts:142-145 | The timer connects with the offset it captured |
| TaskEventsClients.TaskEventsClient.ReconnectNow | apps/web/hooks/use-task-events.ts:293-299 | A manual reconnect gets a fresh budget and the current offset |
| TaskEventsClients.TaskEventsClient.TearDown | apps/web/hooks/use-task-events.ts:329-338 | The effect's cleanup |
| TaskEventsClients.TaskEventsClient.Renew | apps/web/hooks/use-task-events.ts:313-320 | Everything known about the previous task is forgotten |
| TaskEventsClients.TaskEventsClient.ChangeTask | apps/web/hooks/use-task-events.ts:309-327 | Switching tasks: teardown, generation, reset, new connection |
| TaskEventsGuarantees.ResumeOffsetIsCurrent | apps/web/hooks/use-task-events.ts:129-158 | In every reachable state at most one socket or timer is live, a waiting timer carries the offset that is right now, and every socket ever opened asked for exactly what followed the events accepted by then |
| TaskEventsGuarantees.ShowsOneStream | apps/web/lib/task-events.ts:72-93 | Against any server, what is shown is numbered 0..n-1 and of one task, run and agent |
| TaskEventsGuarantees.NotifiesOnce | apps/web/hooks/use-task-events.ts:205-211 | The callback is called for the first terminal event shown, once, and for nothing else |
| TaskEventsGuarantees.RetryBound | apps/web/hooks/use-task-events.ts:129-148 | Automatic reconnects over a whole run are at most five per accepted event, manual reconnect or task change, plus five; left alone, five per event shown plus five |
| TaskEventsProgress.AlwaysSomewhere | apps/web/hooks/use-task-events.ts:129-285 | A client with a task is always attached, waiting, completed after a terminal event, out of budget, or in error, exclusively; behind an honest server an error is a close code that forbids retrying |
| TaskEventsProgress.CloseDecides | apps/web/hooks/use-task-events.ts:245-285 | Every close that is heard: completed, refused for four codes, and otherwise one timer waiting with the current offset and the delay of this attempt, unless five attempts are spent |
| TaskEventsProgress.FrameDecides | apps/web/hooks/use-task-events.ts:174-237 | Every frame that is heard: noted, refused, ignored, shown, or for a gap a reconnect from the current offset |
| TaskEventsProgress.ReturnDecides | apps/web/hooks/use-task-events.ts:142-145 | Timer, user and task change each attach one socket at the right offset of the right task |
| TaskEventsProgress.AttemptsAreSpent | apps/web/hooks/use-task-events.ts:129-148 | The attempt counter is the number of reconnects scheduled since the last accepted event, manual reconnect or task change |
| TaskEventsProgress.UnheardIsIgnored | apps/web/hooks/use-task-events.ts:160-246 | Sockets of an earlier generation or without handlers change nothing; an error alone does nothing; opening only marks the connection |
| TaskEventsGuarantees.HonestVerdict | apps/web/lib/task-events.ts:82-93 | For an entry of the log the verdict depends on its number alone: no conflict, no mismatch |
| TaskEventsGuarantees.PrefixSafety | apps/web/hooks/use-task-events.ts:174-237 | If every frame is an entry of the task's log, then across duplicates, omissions, reorderings, disconnects, reconnects and task changes the events shown are a prefix of the log, and only a close code that forbids retrying stops the client |
| TaskEventsGuarantees.CatchesUp | apps/web/hooks/use-task-events.ts:188-215 | A connection delivering from any point at or before the next missing event brings the client exactly to where the delivery stops |
| TaskEventsGuarantees.ReturnCatchesUp | apps/web/hooks/use-task-events.ts:142-145 | After any honest run, the socket a returning client opens asks for exactly the next missing event, and delivering the rest shows the whole log |
| EndToEnd.WellFormedIsLog | packages/agent-adapter-sdk/src/event-factory.ts:83-95 | What an adapter delivers is what the client takes for a log |
| EndToEnd.ReaderSeesTheOutcome | apps/web/hooks/use-task-events.ts:188-213 | A reader who was disconnected any number of times and is sent the rest sees the whole log and is notified of its last event only |
| EndToEnd.CodexRunReachesReader | adapters/codex/src/codex-run.ts:563-586 | Composed: the reader of a completed Codex run ends with the run's own log and completion |
| EndToEnd.HermesRunReachesReader | adapters/hermes-router/src/hermes-run.ts:172-176 | Composed: the same for a Hermes run |
| BoundedProcess.BoundedProbe.constructor | adapters/codex/src/bounded-process.ts:52-92 | Already aborted, failed to spawn, or running with its timeout armed; default cap and grace |
| BoundedProcess.BoundedProbe.Cleanup | adapters/codex/src/bounded-process.ts:96-119 | All three timers and the listeners go |
| BoundedProcess.BoundedProbe.SettleResult | adapters/codex/src/bounded-process.ts:164-169 | The first result wins |
| BoundedProcess.BoundedProbe.TerminateProcess | adapters/codex/src/bounded-process.ts:121-157 | Kill once; if that did not settle the probe, settle soon without a pid or force after the grace period |
| BoundedProcess.BoundedProbe.OnProcessExit | adapters/codex/src/bounded-process.ts:209-218 | Exit settles with what was captured |
| BoundedProcess.BoundedProbe.OnProcessError | adapters/codex/src/bounded-process.ts:197-207 | A process error settles with its message |
| BoundedProcess.BoundedProbe.OnAbort | adapters/codex/src/bounded-process.ts:172-175 | Abort marks and terminates |
| BoundedProcess.BoundedProbe.OnStdout | adapters/codex/src/bounded-process.ts:182-187 | Capture up to the cap |
| BoundedProcess.BoundedProbe.OnStderr | adapters/codex/src/bounded-process.ts:189-194 | The same for stderr |
| BoundedProcess.BoundedProbe.OnTimer | adapters/codex/src/bounded-process.ts:143-162 | What timeout, force and settle timers do |
| BoundedProcessGuarantees.SettlesOnceInTime | adapters/codex/src/bounded-process.ts:94-218 | For every order of exit, error, abort and timeout the probe settles once, by timeout plus grace; it kills at most once and leaves no timer |
| BoundedProcessGuarantees.CapturesThePrefix | adapters/codex/src/bounded-process.ts:182-195 | The captured texts are the first part, up to the cap, of the concatenated chunks heard before settling |
| BoundedProcessGuarantees.ResultTells | adapters/codex/src/bounded-process.ts:121-218 | What the result says and when it comes: the exit code and signal or the error of the callback that settles, whether the timeout rang, whether the caller aborted; which of these kill and force the process |
| BoundedProcessGuarantees.LaunchTells | adapters/codex/src/bounded-process.ts:71-92 | The results without a process |
| BoundedProcessGuarantees.HeardIsHistory | adapters/codex/src/bounded-process.ts:182-195 | Everything that arrives while the probe listens is captured, in order |
| BoundedProcessGuarantees.TimersKeepTime | adapters/codex/src/bounded-process.ts:127-162 | Every armed timer was set for exactly the duration of its kind |
| ExecutableResolver.Resolve | adapters/codex/src/executable-resolver.ts:85-159 | The nested loops return the declared choice: the first native file reached in time, else a timeout if time ran out, else the first shim with extensionless files ranked last in their directory, else nothing |
| ExecutableResolver.SearchWindows | adapters/codex/src/executable-resolver.ts:107-146 | One directory: its first native file, or the first shim so far |
| ExecutableResolver.SearchedPlaces | adapters/codex/src/executable-resolver.ts:93-112 | The directories are the non-blank entries of PATH, trimmed and in order, split on the platform's separator; the extensions those of PATHEXT or its default |
| ExecutableResolver.SearchedNames | adapters/codex/src/executable-resolver.ts:114-151 | Which names are looked for in a directory, in which order, and which of them are native |
| ExecutableResolver.ChoiceIsUnique | adapters/codex/src/executable-resolver.ts:85-159 | The declared choice determines the answer |

## Left out

- The operating system: processes, signals, process groups, pipes and sockets appear only as callbacks; a process exits at most once, stdout delivers nothing after its end, and kill calls do not throw.
- JSON parsing, schema validation, UTF-8 decoding, path safety against the file system, path joining and lower-casing are parameters: any deterministic functions. The round trip assumes an encoder whose lines read back as the event and contain no LF.
- Bytes in the text parsers: each chunk is decoded on its own in the source, so a character cut by a chunk boundary is damaged before the parser sees it; the text parsers' claims are about decoded text (UTF-16 code units), the Hermes parser's about bytes.
- Time stamps of events, and the randomness of event identifiers, which are given by sequence number.
- Timer rounding and the one-millisecond minimum of the platform's timers; durations are non-negative reals. The default durations of `CodexRun` and the validation inside `serializeInput` (lines 143-193 of execution-transport.ts), which only decides whether a launch has bad input.
- CodexGuarantees.SilentAfterExit: a failed spawn returns without cleanup and leaves the max-duration timer armed until it rings, so that path has no exit and is outside this statement.
- CodexChunking.LogIsChunkIndependent: one direction only, since texts that are not chunk-safe may still give the same log when the run has already ended; kills, timers and the inactivity of time between chunks are not part of it.
- HermesRuns.HermesRun.Begin: the class returns its requests to start or cancel the raw run to its caller; the two runs are joined in the state machine of `HermesRunning`, not as linked objects. A consumer that abandons the iterator early is not modelled.
- EndToEnd.ReaderSeesTheOutcome: the server's storage and replay are represented by the log it holds; that the server sends the rest after a returning client's offset is an assumption of the statement.
- `ClaudeCodeRun`: a sibling of `CodexRun` whose second termination can overwrite its grace timer; only its parser and mapper are modelled.
- React rendering, the unmounted component after which `reconnect` is called, and the mirrored state setters; the board, comparison and plan hooks, which repeat this one.
- Detection, authentication classification, environment allow-lists, argument profiles, prompts, and the kanban transition table: fixed tables.
- SQLite stores, scheduler, recovery, server routes and the Python client.
