# UMA Serve: a verified model

UMA Serve is a single-process inference daemon. Clients send framed JSON requests over a Unix
domain socket; the daemon batches the prompts and generated tokens of all sessions into one
`llama_decode` call per tick and streams the sampled tokens back. This project models that
daemon in Dafny and proves what its users rely on.

`dafny verify dfyconfig.toml` checks everything.

## What is modelled

- **Batching engine.** The planner (`Policy`), the cost guard (`Bmt`), the enactment into
  parallel batch arrays, the model call and the sampling transitions (`Scheduling`, `Batch`), the
  adaptive batch target (`Controller`) and the accounting (`Accounting`). Imperative methods and
  classes are proved equal to specification functions; the theorems are about those functions.
- **Lifecycle.** `SessionManagement` and `Daemons` are the session manager and the event loop as
  classes; `Lifecycle` is the same loop as a transition system with steps accept, readable,
  writable, idle sweep and tick. Every handler of `Daemons.Daemon` is proved to be one step of it.
- **Runs.** `Histories` records beside the state what each connection asked for, which draws it
  consumed and which tokens came out. `Runs` proves one invariant over all steps, `Guarantees`,
  `Wakeups`, `Draining`, `PromptRuns`, `FairRuns`, `Requests`, `Listening` and `Streams` draw the
  consequences for whole runs. The reference that batching is compared with is `Solo`: one request, no batch, no states.
- **Wire.** Framing, escaping and events (`Protocol`), the two hand-written JSON readers (`Json`),
  what survives between the CLI and the server (`RoundTrip`, `CliRequests`), and the receive loop of
  the CLI with what it prints (`Cli`, `Streams`).
- **Sampler** (`Sampling`) over reals, and the **UTF-8 validator** (`Utf8`) against sections 3 and
  4 of RFC 3629.

## Modelling decisions

- A pool owns its sessions through `unique_ptr`, so sessions are values in a map that the methods
  reassign. The iteration order of the `unordered_map` is a parameter (any enumeration).
- The language model is a parameter: logits are any function of the cells of the row's own
  sequence, the sampler any function of logits, parameters and draw, tokeniser and piece
  conversion any functions. A failed model call may leave anything in the sequences of its batch
  and nothing elsewhere; missing logits rows are modelled.
- Clocks, decode durations, socket results (bytes read, partial writes, errors), the metrics JSON,
  random draws and the numbers that `strtod` finds in a request are parameters of the steps.
- The poller reports an open session as readable only while Read interest is registered for it.
- The environment hands out descriptors that are not open. Statements about runs assume one
  request at a time per connection (docs/PROTOCOL.md:32); `Deviations` shows what happens
  otherwise. Statements about wake-ups and draining assume that model calls succeed; draining also
  that the requested logits rows are returned.

Where documentation and code differ the code is modelled:

- docs/SCHEDULER.md:10 says that a session decodes after its prompt has been processed. The code
  samples after the first chunk, so at most 16 prompt tokens are used
  when calls succeed (`PromptRuns.LongPromptsAreCut`), and fewer when a budget binds
  (`PromptRuns.PromptFedWholeIff` has the exact condition). The refinement theorem is stated over
  the prefix that was fed.
- docs/CONFIG.md:28 calls `max_tokens` the maximum number of tokens to generate. The first sample
  does not count, so a request can emit one more (`Guarantees.LimitExceededInRuns` has the exact
  condition, `Deviations.LimitIsExceeded` a run).
- docs/PROTOCOL.md:26 says that a frame is parsed once it is complete. One frame is handled per
  readable event, so of two that come together the second waits for more input
  (`Requests.FrameLeftBehindIff`, `Deviations.SecondFrameWaits`).
- A request on a busy connection is not rejected; it restarts on KV memory that may be stale
  (`Deviations.SecondRequestCleanIff`).
- After a failed model call the error event is queued without Write interest
  (`Wakeups.FailedTickArmedIff`).
- After a failed read a session loses Read interest without being closed or marked as closed, so
  it stays open and deaf until a write fails or the idle sweep comes (`Listening.LostForGood`,
  `Deviations.FailedReadStrands`, src/ipc/session_manager.cpp:79-81).
- A CLI request with the prompt `metrics` and certain ids is answered with metrics
  (`CliRequests.CliRequestClassified`), and a token event under certain ids prints the word
  "token" (`RoundTrip.TokenEventAtCli`).

## Model

| member | source | states |
|---|---|---|
| `Guarantees.RequestsRefineSolo` | src/sched/scheduler.cpp:251-322 | In every legal run (any interleaving of accepts, reads, writes, idle closes and ticks, failed decodes included) the tokens of every request equal those of decoding it alone with the same draws, from the non-empty prompt prefix that was fed, up to the same end; at most `max_tokens + 1` tokens, and reason "length" exactly at that bound |
| `Guarantees.LimitExceededInRuns` | src/sched/scheduler.cpp:270-293 | In every run a request has emitted more than `max_tokens` tokens exactly if it was sampled more often than that and none of the samples 1..max_tokens of its unlimited continuation is an end token |
| `Guarantees.GreedyRequestsRefineSolo` | src/sched/scheduler.cpp:262-275 | If the sampler ignores the draw (temperature <= 0), the tokens do not depend on the random numbers shared between sessions |
| `Guarantees.KvInvariant` | src/sched/scheduler.cpp:107-133 | In every legal run: distinct sequence ids; sessions in PREFILL hold exactly the prompt prefix fed so far, sessions in DECODE that prefix and then all samples but the pending one (all, if a logits row was missing), at consecutive positions from 0, with n_past == prefill_idx + generated_count; waiting and streaming sessions hold nothing; no cells without a live owner |
| `Guarantees.OutputGrammar` | src/sched/scheduler.cpp:237-322 | On every connection, open or closed: the bytes delivered are a prefix of the frames of the requests' events in order, and while it is open the queued bytes are exactly the rest; per request token*, then at most one eos/error/metrics event, all under its id, at most `max_tokens + 1` tokens; only the last request of a connection may be unfinished |
| `Guarantees.ClientSeesPrefix` | src/umad/main.cpp:256-271 | Whatever has been delivered, reading frames from it yields the payloads of a prefix of those events, and all of them once everything has been delivered, as it has whenever `tx` is empty |
| `Guarantees.FlushDeliversAll` | src/umad/main.cpp:228-247 | A step that closes a connection after a flush has delivered all its events |
| `Guarantees.FlushedClientsGotAll` | src/umad/main.cpp:269-290 | So refused, failed, metrics and half-closed connections have got everything, at the end of every run until the descriptor is used again |
| `Streams.StreamedText` | src/sched/scheduler.cpp:276-308 | In every run the token events of a request carry, in order, exactly the tokens with a non-empty piece; each carries the id of the request and the piece of its token; together their texts are the pieces of all its tokens, joined |
| `Streams.EntryText` | src/sched/scheduler.cpp:276-308 | The same for any record |
| `Streams.FailuresArePlain` | src/ipc/session_manager.cpp:98-283 | In every run every error code and message is plain text, so the CLI can name it |
| `Streams.CliPrints` | src/cli/main.cpp:171-227 | End to end, in every run: what the CLI prints from the delivered bytes is part of its final screen, and equal to it once everything has been delivered. That is the text of the tokens with line end and exit code 0, or the error message with exit code 2; the text is exact exactly if it is printable, unless the id is `text` or ends in `"text`, where the word "token" is printed for each event |
| `Streams.ShowPrefix` | src/cli/main.cpp:171-227 | The same for any prefix of the events of a record |
| `Cli.PrintEvents` | src/cli/main.cpp:171-227 | The receive loop computes the screen |
| `Cli.EosEventAtCli` | src/cli/main.cpp:81-111 | Every eos event is recognised, for all ids and reasons |
| `Cli.ErrorEventAtCli` | src/cli/main.cpp:81-111 | So is every error event with a plain code, and its message is read back, unless the id is `message` or ends in `"message`: then it reads "error" |
| `Cli.MetricsEventAtCli` | src/umad/main.cpp:200-206 | A metrics event is recognised whatever the metrics are |
| `Cli.ReasonAtClient` | src/ipc/protocol.cpp:72-76 | The reason of an eos event is read back under a plain id |
| `Cli.CodeAtClient` | src/ipc/protocol.cpp:78-83 | So is the code of an error event |
| `Cli.TokenIdAtClient` | src/ipc/protocol.cpp:61-70 | The number behind the last colon of a token event is the id of its token, whatever id and text are |
| `Listening.RunsKeepLines` | src/umad/main.cpp:143-321 | Over all runs: Read interest is kept for exactly the open sessions whose input has neither ended nor failed, and `last_activity_ns` is the time it was last touched |
| `Listening.ReadInterestIff` | src/umad/main.cpp:189-214 | Hence a descriptor has Read interest exactly if its session is open and its input is live |
| `Listening.ReadUntilClosed` | src/umad/main.cpp:192-214 | If no read and no model call has failed, exactly the open sessions not marked `read_closed` are read |
| `Listening.LostForGood` | src/ipc/session_manager.cpp:77-82 | After a failed read a session is never read again, whatever follows, until its descriptor is used anew |
| `Listening.IdleIff` | src/umad/main.cpp:296-307 | A sweep closes a session exactly if a timeout is set and more than that has passed since it was last touched |
| `Listening.AnsweredIsKeptIff` | src/umad/main.cpp:269-290 | Once its answer is flushed a session stays open exactly if it was streaming and its input has not ended; then it waits for a request, keeps its sequence id, its unread input and its Read interest |
| `Listening.WrittenIsDisarmed` | src/umad/main.cpp:250-291 | A writable event leaves Write interest exactly while something is left to write |
| `Listening.RunsFit` | src/umad/main.cpp:176-190 | In every run at most `max_sessions` sessions are open, and only open sessions have Write interest |
| `Guarantees.SchedulerInvariant` | src/sched/scheduler.cpp:170-235 | In every legal run EWMA and target are those of the recorded decode times, the target stays in [min(8,cap), max(8,cap)], every call counts exactly the rows of its batch, and the counters balance against the calls |
| `Guarantees.EwmaOfRuns` | src/sched/scheduler.cpp:226-227 | In every run the EWMA stays in every interval that holds 30 and all decode times |
| `Guarantees.OverloadOfRuns` | src/sched/scheduler.cpp:230-235 | In every run whose last 17 + cap or more calls took at least 40 ms the target is 8 |
| `Guarantees.OverloadOfRunsIsGeometric` | src/sched/scheduler.cpp:230-235 | The same after 17 + n calls, where 0.7^n * cap < 9: a number logarithmic in cap |
| `Guarantees.RecoveryOfRuns` | src/sched/scheduler.cpp:226-235 | In every run, after any calls of at most H ms, a cool-down that depends on H and then n calls of at most 20 ms, where 1.125^n >= cap - 7, bring the target to cap |
| `Runs.StepKeepsInv` | src/umad/main.cpp:143-321 | Every step of the daemon keeps the invariant that ties session fields, KV cells, sequence ids, request history and output bytes together |
| `Runs.RunKeepsInv` | src/umad/main.cpp:143-321 | The invariant holds at the end of every legal run from start-up |
| `Runs.TickKeepsInv` | src/sched/scheduler.cpp:32-325 | A tick keeps the invariant for all sessions at once, whether or not the model call succeeds and whichever logits rows are missing |
| `Runs.ReadableKeepsInv` | src/umad/main.cpp:192-249 | So does input, with its immediate write and the reset or close behind it |
| `Runs.WritableKeepsInv` | src/umad/main.cpp:250-291 | So does the write loop, with the reset or close behind it |
| `Runs.AcceptKeepsInv` | src/ipc/session_manager.cpp:19-28 | So does accepting a client |
| `Runs.CloseKeepsInv` | src/ipc/session_manager.cpp:30-46 | Closing removes the cells of that session and of nobody else |
| `Runs.IdleKeepsInv` | src/umad/main.cpp:296-307 | So does the idle sweep |
| `Invariants.DecodeTick` | src/sched/scheduler.cpp:276-321 | One tick of a decoding session: cells, pending token, counters, the next token of the solo reference, and the events queued agree |
| `Invariants.PrefillTick` | src/sched/scheduler.cpp:270-275 | The same for the first chunk of a prompt and the first sample |
| `Solo.DecodeBound` | src/sched/scheduler.cpp:287-293 | The solo reference emits at most `max_tokens + 1` tokens and ends with "length" exactly there |
| `Solo.DecodeCutsFree` | src/sched/scheduler.cpp:276-293 | The reference is the unlimited continuation, cut at the first end token after the first sample or at the limit |
| `Solo.LimitExceededIff` | src/sched/scheduler.cpp:287-293 | Hence the exact condition for more than `max_tokens` tokens |
| `Solo.GreedyIsDeterministic` | src/sched/sampling.cpp:20-28 | The solo reference does not depend on the draws if the sampler ignores them |
| `Solo.ArgmaxIgnoresDraws` | src/sched/sampling.cpp:20-28 | A sampler that returns the lowest-index argmax ignores the draw |
| `Batch.BatchCells` | src/sched/scheduler.cpp:102-135 | The batch stores in a sequence exactly what the one item of that session feeds, in order |
| `Batch.FeedStores` | src/sched/scheduler.cpp:150-162 | The model call appends to each sequence exactly the rows of that sequence |
| `NonInterference.BusySession` | src/sched/scheduler.cpp:251-322 | A session that feeds tokens ends the tick in the state it would reach by itself, and is reported for arming exactly if its output was empty |
| `NonInterference.BusyCells` | src/sched/scheduler.cpp:294-300 | and its KV cells are those it would have by itself (none after an end token) |
| `NonInterference.IdleSession` | src/sched/scheduler.cpp:102-135 | Sessions that feed nothing, also when their chunk was trimmed to nothing, are untouched |
| `NonInterference.QuietCells` | src/sched/scheduler.cpp:237-249 | Sequences outside the batch keep their cells, even when the call fails |
| `NonInterference.OwnToken` | src/sched/scheduler.cpp:255-269 | The token sampled for a session depends only on its own cells and its own item |
| `TickSpec.FinalPlanCounts` | src/sched/scheduler.cpp:137-148 | The planned counters add up to the number of batch rows, and the batch fits min(target, cap) |
| `TickSpec.BatchCostIsEstimate` | src/sched/bmt.cpp:13-30 | The sum of (pos + 1) over the batch equals the cost estimate of the enacted plan |
| `TickSpec.SamplesAreLogitsRows` | src/sched/scheduler.cpp:145-148 | Samples correspond one to one and in order with the rows that ask for logits |
| `TickSpec.FinalPlanItems` | src/sched/scheduler.cpp:57-99 | The plan after the cost guard has one item per session, decode items of one token, and chunks inside the prompt |
| `Scheduling.PushChunk` | src/sched/scheduler.cpp:118-132 | All batch arrays grow in lockstep by exactly the rows of the chunk |
| `Scheduling.Scheduler.constructor` | src/sched/scheduler.cpp:19-30 | The initial scheduler state |
| `Scheduling.Scheduler.EnactItem` | src/sched/scheduler.cpp:102-135 | Rows of one item, and the session counters behind them |
| `Scheduling.Scheduler.Enact` | src/sched/scheduler.cpp:102-135 | The whole plan as batch arrays in lockstep, the sample list and the advanced sessions |
| `Scheduling.Scheduler.Advance` | src/sched/scheduler.cpp:270-321 | The transition of one session on its sample |
| `Scheduling.Scheduler.ApplySamples` | src/sched/scheduler.cpp:251-325 | The sampling loop: sessions, KV memory and the list to arm, missing rows skipped |
| `Scheduling.Scheduler.FailSamples` | src/sched/scheduler.cpp:237-249 | The failure loop |
| `Scheduling.Scheduler.MakePlan` | src/sched/scheduler.cpp:57-99 | Plan, then trim to the cost budget if one is set |
| `Scheduling.Scheduler.Execute` | src/sched/scheduler.cpp:101-325 | Enact, one model call, sample |
| `Scheduling.Scheduler.RecordCall` | src/sched/scheduler.cpp:170-205 | The counters after one model call |
| `Scheduling.Scheduler.Update` | src/sched/scheduler.cpp:97-235 | Cursors always move; metrics, EWMA and target only when there was a call |
| `Scheduling.Scheduler.Tick` | src/sched/scheduler.cpp:32-328 | The whole tick equals its specification, its plan is enactable and its batch never exceeds the reserved capacity |
| `Bmt.SumArithIsExact` | src/sched/bmt.cpp:8-11 | The closed form in 64-bit arithmetic equals the token-by-token sum for all 32-bit counters |
| `Bmt.EstimateUnits` | src/sched/bmt.cpp:13-30 | The loop with the closed form and the 64-bit accumulator computes the estimate modulo 2^64 |
| `Bmt.EstimateFits` | src/sched/bmt.cpp:13-30 | which never wraps for a plan of less than 2^31 tokens |
| `Bmt.TrimItem` | src/sched/scheduler.cpp:75-83 | The inner loop: tokens leave the end of one chunk until the estimate fits, and the running estimate stays exact |
| `Bmt.TrimToBudget` | src/sched/scheduler.cpp:59-85 | The guard's running estimate equals the estimator at every removal and never underflows; counter and `trimmed` flag agree with what was removed |
| `Bmt.GuardIsExact` | src/sched/scheduler.cpp:72-85 | At exit within budget or no prefill token left; decode items untouched; only a suffix of the prefill work removed; one token more would exceed the budget |
| `Bmt.GuardKeepsWork` | src/sched/scheduler.cpp:59-85 | If every planned prefill starts an empty sequence the guard never empties the plan |
| `Policy.BuildPools` | src/sched/policy.cpp:16-29 | The two pools in iteration order |
| `Policy.PlanDecode` | src/sched/policy.cpp:31-44 | Phase A: one token each, round-robin from the cursor, within budget |
| `Policy.SplitByFirstToken` | src/sched/policy.cpp:48-62 | The split by awaited first token, in rotated order |
| `Policy.SchedulePool` | src/sched/policy.cpp:64-83 | Chunks in order while budget is left, at most 16 for a session without output |
| `Policy.PlanPrefill` | src/sched/policy.cpp:46-89 | Phase B |
| `Policy.ScheduleTick` | src/sched/policy.cpp:9-92 | The imperative planner computes the plan function |
| `PlanProperties.PlanIsCorrect` | src/sched/policy.cpp:13-92 | For any pool, order, cursors and budgets: counters, budget, one item per fd, chunks inside the prompt, decode before prefill, first tokens before others, and no eligible session skipped while budget is left |
| `PlanProperties.RotateMembers` | src/sched/policy.cpp:34-35 | The round-robin read visits every session exactly once |
| `Fairness.ServedWithinOneRound` | src/sched/policy.cpp:31-44 | With a stable decode pool of N and positive budgets, N consecutive ticks serve every session |
| `Fairness.ServedEqually` | src/sched/policy.cpp:31-44 | With a constant budget B, each exactly min(B, N) times |
| `Fairness.HeadIsAtCursor` | src/sched/policy.cpp:46-89 | The prefill read starts at the session under the cursor, and the cursor handed over is the next one |
| `Fairness.HeadsExactlyOnce` | src/sched/policy.cpp:84-89 | N consecutive ticks with N waiting sessions and budget left after phase A: each heads the prefill items exactly once |
| `Fairness.PlanFollowsRings` | src/sched/policy.cpp:31-85 | All items in order: the decoders round from their cursor, then the waiting sessions round from theirs |
| `Fairness.CursorsStartOver` | src/sched/policy.cpp:31-89 | Without budget or sessions for its phase a cursor is handed over as 0 |
| `FairRuns.FedIsServed` | src/sched/scheduler.cpp:72-85 | The cost guard takes no decode token away |
| `FairRuns.FairInRuns` | src/sched/scheduler.cpp:97-99 | In every run, whatever other steps come between the ticks: N consecutive ticks with a stable decode pool of N give every session a token |
| `FairRuns.EquallyFedInRuns` | src/sched/scheduler.cpp:97-99 | and with a constant budget B exactly min(B, N) each |
| `FairRuns.PrefillFairInRuns` | src/sched/scheduler.cpp:97-99 | In every run: N consecutive ticks with the same N waiting sessions and budget left after phase A start the prefill work at each of them exactly once |
| `Controller.BudgetStaysInRange` | src/sched/scheduler.cpp:226-235 | For all sequences of decode times min(target, cap) stays in [min(8,cap), cap] |
| `Controller.EwmaStaysInside` | src/sched/scheduler.cpp:226-227 | The EWMA stays in every interval that holds its start and all observations |
| `Controller.OverloadReachesFloor` | src/sched/scheduler.cpp:230-235 | After any history, 17 + cap calls of at least 40 ms bring the target to 8, where it stays |
| `Controller.TargetMoves` | src/sched/scheduler.cpp:230-235 | The target moves exactly when the EWMA is outside [24, 39]: down above, up below, unless it is at its bound |
| `Controller.TargetShrinksGeometrically` | src/sched/scheduler.cpp:230-232 | n slow calls leave the target within 3 of 0.7^n times what it was, or at 8 |
| `Controller.OverloadIsGeometric` | src/sched/scheduler.cpp:230-232 | After any history, 17 + n calls of at least 40 ms bring the target to 8, where 0.7^n * cap < 9 |
| `Controller.EwmaClosedForm` | src/sched/scheduler.cpp:226-227 | Under calls of equal length the distance of the EWMA from it shrinks by the factor 0.8 each |
| `Controller.TargetGrowsGeometrically` | src/sched/scheduler.cpp:232-235 | n fast calls lift the target between 1.125^n times its distance from 7 and 1.125^n times itself, or to cap |
| `Controller.RecoveryReachesCap` | src/sched/scheduler.cpp:226-235 | After any history with decode times of at most H, a cool-down computed from H and n calls of at most 20 ms bring the target to cap, where 1.125^n >= cap - 7 |
| `Accounting.RecordBalances` | src/sched/scheduler.cpp:170-205 | Generation plus prefill time equals total time, tokens likewise, the two generation totals coincide, and min <= last <= max |
| `Accounting.CountersBalance` | src/sched/scheduler.cpp:170-205 | Hence after any list of model calls |
| `Accounting.RecordSplits` | src/sched/scheduler.cpp:178-199 | The generation share of a call is its time times the generated share of the tokens, rounded down, the prefill share is the rest, and the last decode time is that share in rounded milliseconds |
| `Accounting.RecordExtremes` | src/sched/scheduler.cpp:200-205 | Minimum and maximum bound the generation times of all calls that generated and are attained by one of them or still at their start values |
| `Draining.ReadyWorkIsServed` | src/sched/policy.cpp:31-89 | Whenever some session is ready the final plan feeds at least one token, guard on or off |
| `Draining.StepDrains` | src/sched/scheduler.cpp:251-322 | Every successful tick with ready work lowers the measure (max_tokens+2 per PREFILL, max_tokens+1-generated per DECODE); no other step without a new request raises it: connecting, partial input, half-close, writing, closing |
| `Draining.EveryRequestFinishes` | src/sched/scheduler.cpp:251-322 | From every smooth state within the invariant, that many ticks leave no session in PREFILL or DECODE |
| `Draining.RunsDrain` | src/umad/main.cpp:309-320 | The same after any run with successful decodes, whatever steps without a new request come between the ticks |
| `Draining.GoodRunsAreSmooth` | src/sched/scheduler.cpp:251-322 | Runs with successful decodes only reach such states |
| `Wakeups.StepKeepsArmed` | src/umad/main.cpp:143-321 | Every step with successful decodes keeps Write interest for all queued output |
| `Wakeups.NoLostWakeups` | src/umad/main.cpp:312-320 | Hence in every such run queued output is armed |
| `Wakeups.FailedTickArmedIff` | src/sched/scheduler.cpp:237-249 | After a failed decode output stays armed exactly if every session of the batch already had Write interest |
| `WholePrompts.FullIff` | src/sched/policy.cpp:64-83 | A chunk of a pool is full exactly if the full chunks up to it fit the budget |
| `WholePrompts.PlannedFullIff` | src/sched/policy.cpp:31-85 | In a plan, exactly if one token for every ready decoder and the full chunks of the waiting sessions up to it fit min(target, cap) |
| `WholePrompts.GuardKeepsIff` | src/sched/scheduler.cpp:72-85 | The guard leaves a chunk alone exactly if the estimate up to it fits the cost budget |
| `WholePrompts.WholePromptIff` | src/sched/scheduler.cpp:57-99 | For any pool, order, cursors and guard: the rest of a waiting prompt is planned as one chunk exactly if it is at most 16 tokens and fits both budgets together with everything that comes first |
| `PromptRuns.TickFeedsWholeIff` | src/sched/scheduler.cpp:118-132 | A tick gives a request its first token and its whole prompt exactly under that condition |
| `PromptRuns.RecordsEvolve` | src/sched/scheduler.cpp:270-321 | Along every run requests keep id, prompt and parameters, tokens are only added, and what was fed is settled by the first token |
| `PromptRuns.PromptFedWholeIff` | src/sched/scheduler.cpp:118-131 | Hence, over runs, a request with tokens has been fed its whole prompt exactly if the condition held at the tick of its first token |
| `PromptRuns.LongPromptsAreCut` | src/sched/scheduler.cpp:127-131 | In runs with successful decodes no request is ever fed more than 16 prompt tokens, so longer prompts are cut |
| `Deviations.LimitIsExceeded` | src/sched/scheduler.cpp:270-287 | A run with `max_tokens` zero that emits a token |
| `Deviations.SecondFrameWaits` | src/ipc/session_manager.cpp:92-106 | A run in which the second of two frames sent together is complete in `rx` and is never looked at until the client sends more |
| `Deviations.LongPromptIsCut` | src/sched/scheduler.cpp:127-131 | A run in which a prompt of more than 16 tokens is cut |
| `Deviations.LaterPromptIsCut` | src/sched/policy.cpp:64-85 | With a budget of 20 the second of two waiting prompts of 16 tokens is cut |
| `Deviations.FailedDecodeLosesWakeup` | src/sched/scheduler.cpp:237-249 | A run in which the wake-up is lost |
| `Deviations.SecondRequestCleanIff` | src/ipc/session_manager.cpp:286-301 | A request on a busy connection starts on clean KV memory exactly if nothing of the previous one had been fed |
| `Deviations.RequestStarts` | src/ipc/session_manager.cpp:286-301 | A request starts its session from scratch, in any state, and leaves the KV memory as it is |
| `Deviations.AskDecodes` | src/umad/main.cpp:143-321 | Connecting, sending a CLI request and one tick is a legal run that leaves the session decoding |
| `Deviations.SecondRequestLeavesStaleCell` | src/ipc/session_manager.cpp:286-301 | After that run the same request once more is possible, is not polite, and starts on stale cells |
| `Deviations.FailedReadStrands` | src/ipc/session_manager.cpp:77-82 | A run in which a read fails right after connecting: the session stays open, is not marked as closed, and is never read again |
| `SessionManagement.SessionManager.AddClient` | src/ipc/session_manager.cpp:19-28 | A fresh session under the fd |
| `SessionManagement.SessionManager.Close` | src/ipc/session_manager.cpp:30-46 | Session, interest and KV sequence all go, for unknown fds nothing but the interest |
| `SessionManagement.SessionManager.Receive` | src/ipc/session_manager.cpp:64-90 | Buffered bytes, activity time and end of stream |
| `SessionManagement.SessionManager.Reject` | src/ipc/session_manager.cpp:98-104 | An error event; the session is closed once flushed |
| `SessionManagement.SessionManager.StartPrompt` | src/ipc/session_manager.cpp:284-310 | PREFILL with a sequence id assigned once per connection, or eos for a prompt without tokens |
| `SessionManagement.SessionManager.TakeNumbers` | src/ipc/session_manager.cpp:265-273 | Of temperature, top_p and top_k those that the request gives replace those of the session |
| `SessionManagement.SessionManager.Serve` | src/ipc/session_manager.cpp:194-310 | One payload: admin, refused, too large, started or empty, under the parameters that came with it |
| `SessionManagement.SessionManager.Read` | src/ipc/session_manager.cpp:55-312 | The whole of on_readable, unknown fds and read errors included |
| `SessionManagement.ClassifyPayload` | src/ipc/session_manager.cpp:194-283 | The checks in their order, with the extractor |
| `SessionManagement.ReadableEffect` | src/ipc/session_manager.cpp:55-312 | A readable event buffers, answers at once or starts from scratch, and asks for a write exactly when it answers |
| `Lifecycle.UnsentIsSuffix` | src/umad/main.cpp:256-268 | Whatever the partial writes, what is unsent is a suffix of `tx` |
| `Daemons.Daemon.HandleAccept` | src/umad/main.cpp:170-191 | Accept is the accept step, a full pool refuses |
| `Daemons.Daemon.FinishFlushed` | src/umad/main.cpp:269-290 | Close, reset or leave a flushed session |
| `Daemons.Daemon.WriteAtOnce` | src/umad/main.cpp:215-248 | The immediate write, Write interest for the rest |
| `Daemons.Daemon.ReadRequest` | src/umad/main.cpp:192-214 | Read, metrics answer, Read interest |
| `Daemons.Daemon.HandleReadable` | src/umad/main.cpp:192-249 | Input is the readable step |
| `Daemons.Daemon.WriteLoop` | src/umad/main.cpp:256-268 | The loop of partial writes |
| `Daemons.Daemon.HandleWritable` | src/umad/main.cpp:250-291 | Output is the writable step |
| `Daemons.CollectIdle` | src/umad/main.cpp:296-305 | Exactly the idle sessions are collected |
| `Daemons.ClosedTogether` | src/umad/main.cpp:306-307 | Closing a list one by one removes exactly their sessions, cells and interest |
| `Daemons.Daemon.SweepIdle` | src/umad/main.cpp:296-307 | The sweep is the idle step |
| `Daemons.Daemon.Arm` | src/umad/main.cpp:313-319 | Write interest for the reported sessions with output |
| `Daemons.Daemon.RunTick` | src/umad/main.cpp:309-320 | Tick and arming are the tick step |
| `Daemons.Daemon.Handle` | src/umad/main.cpp:143-321 | Every handler on a daemon in a reachable state leads to the next reachable state of the transition system |
| `Daemons.PastIsBounded` | src/sched/scheduler.cpp:119-133 | A session that is being served is never past its prompt and max_tokens samples, so int32 counters suffice |
| `Daemons.Daemon.HandleAll` | src/umad/main.cpp:168-293 | The reported events of one iteration, one after the other |
| `Daemons.Daemon.Iterate` | src/umad/main.cpp:143-321 | One loop iteration is a legal continuation of the run, so every guarantee above holds of the live objects |
| `Protocol.HeaderRoundTrip` | src/ipc/protocol.cpp:8-36 | The little-endian header is read back |
| `Protocol.FrameIsRead` | src/ipc/protocol.cpp:12-36 | A written frame is read back and only it is consumed |
| `Protocol.PartialFrameWaits` | src/ipc/protocol.cpp:14-24 | Every proper prefix of a frame is left alone |
| `Protocol.DrainAppend` | src/ipc/protocol.cpp:12-28 | Reading in two rounds is reading everything at once |
| `Protocol.PrefixIsRead` | src/ipc/protocol.cpp:12-36 | From any prefix of the frames a prefix of the payloads is read and exactly the remainder is buffered |
| `Protocol.FramingSurvivesChunking` | src/ipc/protocol.cpp:8-36 | For all payload lists and all splits of their bytes: exactly the payloads, in order, nothing left |
| `Protocol.ClientReadsEvents` | src/ipc/protocol.cpp:61-83 | The same for the events on the wire |
| `Protocol.JsonEscape` | src/ipc/protocol.cpp:38-59 | The escaping loop computes the escape function |
| `Protocol.EscapeGuardsQuotes` | src/ipc/protocol.cpp:41-48 | Every quote inside an escaped string follows a backslash |
| `Protocol.EscapeKeepsUtf8` | src/ipc/protocol.cpp:38-59 | json_escape(s) is well-formed UTF-8 exactly if s is |
| `Protocol.DecimalIsRead` | src/ipc/protocol.cpp:61-70 | A token id is written in decimal: reading the digits gives the number back |
| `Json.ReadLiteral` | src/ipc/session_manager.cpp:122-191 | The extractor's loop computes the literal's value and flag |
| `Json.ExtractJsonString` | src/ipc/session_manager.cpp:110-192 | The extractor computes the specification |
| `Json.ParseEscaped` | src/ipc/session_manager.cpp:122-191 | An escaped string is read back unflagged, control bytes other than \n, \r, \t as "?" |
| `Json.ServerReadsRfcEscapes` | src/ipc/session_manager.cpp:127-183 | The eight short escapes of section 7 of RFC 8259 are read as their characters, and every other escape that is not a unicode one ends the string with the flag set |
| `Json.JsonGetString` | src/cli/main.cpp:81-111 | The CLI reader computes its specification |
| `Json.CliParseEscaped` | src/cli/main.cpp:89-110 | What the CLI reads back from an escaped string |
| `Json.CliEchoIsIdentity` | src/cli/main.cpp:89-110 | It is the string itself exactly if there is no other control byte |
| `RoundTrip.RequestIsReadBack` | src/cli/main.cpp:151-159 | For all ids and prompts the server finds both unflagged, even when "prompt" first matches at the end of the id; unchanged exactly if printable |
| `RoundTrip.KeyAtEndEscaped` | src/ipc/protocol.cpp:38-59 | A plain key ends the escaped id behind a quote exactly if it ends the id so |
| `RoundTrip.MatchAtIdEnd` | src/ipc/session_manager.cpp:113-116 | The key matches at the end of the id's value exactly if the id is the key or ends in a quote and the key |
| `RoundTrip.TokenEventAtCli` | src/cli/main.cpp:81-111 | The CLI reads "token" as the event and the text back (exactly when printable), unless the id is `text` or ends in `"text`: then it reads "token" |
| `CliRequests.CliRequestClassified` | src/ipc/session_manager.cpp:194-283 | A CLI request is taken for a metrics request exactly if its prompt is `metrics` and its id is or ends in `type` or `event` that way; otherwise it is refused as empty or too large, or understood |
| `CliRequests.MisreadRequest` | src/ipc/session_manager.cpp:194-207 | A concrete prompt that is answered with metrics |
| `CliRequests.CliMetricsIsAdmin` | src/cli/main.cpp:146-148 | The metrics request of the CLI is taken for one |
| `Requests.NewEntryMatches` | src/ipc/session_manager.cpp:92-310 | What a handled frame records is what the checks find in it |
| `Requests.RequestsComeFromFrames` | src/ipc/session_manager.cpp:55-312 | In every run the requests of a connection are those found in the frames it has handled, one each and in order: same id, the tokens of the same prompt, or the refusal, under the sampling parameters that result from the numbers in the frames up to it; received bytes are these frames and then `rx` |
| `Requests.RequestsInOrder` | src/ipc/protocol.cpp:12-28 | If the bytes a client has sent are part of the frames of some payloads, its requests are those payloads from the first on, none skipped |
| `Requests.CliRequestIsServed` | src/cli/main.cpp:146-164 | End to end: a printable CLI request is recorded under its id with the tokens of its prompt and the parameters that came with its frames, and has produced the solo tokens of the fed part under those parameters |
| `Requests.ParamsSnoc` | src/ipc/session_manager.cpp:265-273 | The parameters in force, each number the latest given on the connection or its default, are overridden by exactly the numbers that the next request gives |
| `Requests.FrameLeftBehindIff` | src/ipc/session_manager.cpp:92-106 | A complete frame is left in `rx` exactly if two or more had come together |
| `Requests.FrameStaysBehind` | src/umad/main.cpp:192-249 | It stays there until the next readable event of that connection |
| `Protocol.ReadIsFrame` | src/ipc/protocol.cpp:12-28 | What is read was a frame at the front of the buffer |
| `Sampling.Argmax` | src/sched/sampling.cpp:20-28 | The lowest-index maximum |
| `Sampling.PartialSort` | src/sched/sampling.cpp:30-38 | A permutation whose first k ranks descend and dominate the rest |
| `Sampling.TopKBound` | src/sched/sampling.cpp:33-38 | Fewer than k ids have a strictly larger logit than any kept rank |
| `Sampling.Softmax` | src/sched/sampling.cpp:40-56 | The probabilities sum to one and are to each other as exp(logit / temperature), for every exponential: the Boltzmann distribution of the kept ranks |
| `Sampling.SoftmaxIsBoltzmann` | src/sched/sampling.cpp:40-56 | The normalised weights, shifted by the largest logit, are that distribution |
| `Sampling.BoltzmannIsUnique` | src/sched/sampling.cpp:40-56 | Logits and temperature determine it |
| `Sampling.CoolerIsSharper` | src/sched/sampling.cpp:40-48 | A lower temperature never lowers the mass of the top ranks |
| `Sampling.TopPEdges` | src/sched/sampling.cpp:58-69 | top_p of zero or less keeps one rank, of 0.9999 or more keeps all |
| `Sampling.SoftmaxIsDistribution` | src/sched/sampling.cpp:40-56 | They are a positive, descending distribution |
| `Sampling.NucleusCut` | src/sched/sampling.cpp:58-69 | The first prefix that reaches top_p, or all |
| `Sampling.TopRanksAreHeaviest` | src/sched/sampling.cpp:58-69 | Exchange argument: no set of ranks outweighs as many top ranks |
| `Sampling.NucleusIsOptimal` | src/sched/sampling.cpp:58-69 | The kept prefix reaches top_p and no smaller set of tokens does |
| `Sampling.DrawRank` | src/sched/sampling.cpp:71-84 | Renormalise and draw |
| `Sampling.DrawIsInverseCdf` | src/sched/sampling.cpp:76-84 | A rank is drawn exactly on an interval as long as its probability, and exactly one rank is drawn |
| `Sampling.RenormalisedInterval` | src/sched/sampling.cpp:71-84 | The same in terms of the probabilities before renormalisation |
| `Sampling.Sample` | src/sched/sampling.cpp:16-85 | The sampler end to end: empty vocabulary, greedy, all-zero weights; otherwise the draw from the nucleus of the Boltzmann distribution of the kept ranks at the given temperature |
| `Sampling.SamplerIsNucleusSampling` | src/sched/sampling.cpp:30-84 | Its result is an optimal-nucleus inverse-CDF draw within the top-k bound |
| `Utf8.IsValidUtf8` | src/util/utf8.h:9-54 | The loop accepts exactly the encodings of sequences of Unicode scalar values |
| `Utf8.AcceptsExactlyWellFormed` | src/util/utf8.h:9-54 | So does the automaton of its three variables |

## Left out

- Sockets, kqueue, signals and descriptor flags: events and results are parameters of the steps,
  the poller is two sets of descriptors.
- The listening socket, the poll timeout and shutdown of the event loop.
- llama.cpp itself, tokenisation and conversion of tokens to text: parameters.
- Configuration parsing, logging and the text of the metrics JSON: they hold no hard property.
- IEEE rounding, non-finite sums, `mt19937` and `strtod`: reals, an arbitrary draw in [0, 1) and
  arbitrary parameters instead. The guards against a sum that is not finite and against an empty
  cut are unreachable over reals and are not modelled.
- The order in which `partial_sort` leaves equal logits: results hold for every such order.
- Perf counters, SLO fields, the guard's gauges, `tokens_generated_total`, `last_error`,
  `req_start_ns`, `last_emit_ns` and the unused helper `stable_max`.
- 32- and 64-bit wrap-around of counters, sequence ids, timestamps and milliseconds: unbounded
  integers, except in `Bmt`, where the closed form and the accumulator of the estimate are modelled
  in 64 bits and shown not to wrap. The clamp of a prompt's remaining length to INT_MAX is not
  modelled.
- `rx`, `tx` and `plan.items` are values that methods replace; erasing in place and the reserved
  capacity of the vectors appear only as the bound on the batch size.
- Scheduling.Scheduler.Tick: requires `n_past` of ready sessions and the batch target below 2^31, the
  range of the source's `int32_t`.
- Daemons.Daemon.constructor: requires that a prompt of at most `max_prompt_bytes` bytes never has so
  many tokens that they and `max_tokens` exceed the range of `int32_t`; every later handler derives
  its bounds from that.
- Atomics and memory order: the daemon is single-threaded (docs/SYSTEM_DESIGN.md:39).
- Option parsing, connecting and short reads of the CLI: its receive loop works on whole payloads.
- Planned features in the documentation (cancellation, QoS, prefix cache): not implemented.
