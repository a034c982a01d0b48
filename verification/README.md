# Verification of the agent runtime

This project models the crash-recoverable execution of agent runs and proves what it promises. A run is
created once per tenant and idempotency key; workers lease it under fencing tokens, execute its Agent Loop,
and persist every output of the loop as an event, with a checkpoint of the loop's state where there is one;
any worker may crash or be superseded at any point, and the next one resumes from the last checkpoint.

The parts, and the modules they are in:

- **Engine.** `Engine` is the loop as a function from an environment (model, tools, context) and a state to
  the finite trace of everything one call does: outputs, dropped outputs, tools entered. `EngineLoop` is the
  same loop as it runs, in place, proved equal to it. `Turns` says of one round what it makes of what the model
  and the tools said, `EngineInvariants` and `Transcript` what holds along every trace; `Recovery`, `UsageReplay` and `Restarts` compare calls that were resumed, any number of
  times and from any checkpoint, with calls that never crashed; `Examples` has calls for which they differ.
- **Store.** `Store` is the repository as a value with its invariant, `MemoryRepository` the class with the
  four maps proved against it, `StoreHistory` what holds over every history of calls, `Creations` which
  creations are answered and how, and `Leases` what a lease allows, to whom and how long. Every call takes
  the time it claims as an argument, and nothing is assumed about these times.
- **Workers.** `Workers` is a transition system of any number of runs, workers and attempts: each attempt
  has an engine running ahead into a channel of 32 outputs and a worker persisting them. Steps are creating,
  leasing, loading a checkpoint, producing, taking, writing, saving, renewing, stopping and leaving; attempts
  are never forgotten, so a superseded one goes on for as long as it likes. `WorkersInvariant`,
  `WorkersSteps`, `WorkersCheckpoints` and `WorkersSafety` prove its invariant, `Guarantees` what follows.
  `Transparency` proves that recovery changes nothing that can be observed but usage totals: the log of a run,
  put together by any number of workers, consists of consecutive pieces of the call that never crashed, holds
  its outputs in order and ends with the same result; `Pieces` has what of it is about sequences alone.
  `Backlog` says how far an engine can be ahead of what is stored, `TurnCalls` where the calls of a turn stand
  in a trace, and `Schedules` puts runs of the system together; `RunAhead` decides with them which tools with
  side effects can run twice, and `LockStep` shows that none would if the engine waited for its worker.
  `WorkerLoop` is the worker's loop itself.
- **Postgres.** `Postgres` is the SQL repository as rows of its five tables, one function per transaction;
  `PostgresRefinement`, `PostgresSimulation` and `PostgresHistory` prove that it refines the store and that
  the outbox announces exactly the logs; `PostgresCreations` decides its creations, `PostgresTexts` says which
  texts its columns take, and `PostgresRepository` is the class, statement by statement.
- **Outbox.** `Outbox` is the leasing of messages, `OutboxProtocol` what lease tokens guarantee among any
  number of publishers and when they may lease a row, `Publisher` one publishing round and the backoff.
- **Model stream.** `StreamAssembly` and `StreamReader` put tool calls and text together from a stream;
  `StreamEnds` says when it ends well.
- **Schema.** `Schema` is the definition checker and the value validator.
- **Event stream.** `EventStream` is the cursor loop of the server-sent event endpoint.

Where a promise does not hold of the code unconditionally, the exact condition is proved, with a concrete
counterexample beside it:

- a resumed call goes on as if it had not crashed: `Recovery.ResumeTransparent`, `UsageReplay.UsageReplayed` and,
  for any history of crashes, `Restarts.LastCrashMatters`; `Examples.UnsafeResumeDiffers`,
  `Examples.UsageReplayDiffers`;
- a tool with side effects runs at most once: `RunAhead.RepeatableIffInReach`; `RunAhead.AWriteRunsTwice`;
- a model stream's tool calls come out once: `StreamAssembly.CallsRepeat`, `StreamAssembly.LateFragments`;
  `StreamReader.AskedTwice`;
- a closed event stream has delivered everything: `EventStream.ClosedDelivers`; `EventStream.ClosedMayMiss`;
- both stores take the same calls: `PostgresSimulation.CallMatches`; `PostgresSimulation.NulDeltaDiffers`.

Environments: the model's streams, the tools' results and the view of the context at each place where the
loop looks at it are functions the environment supplies; clocks, signals, the sink's answers, polls and
traversal orders of maps are parameters too.

Where the repository's documentation and its code differ, the model follows the code:

- Fencing is said to prevent double execution (`docs/state-machine.md:29`). It does for everything that is
  stored (`StoreHistory.StaleWritersRejected`); a tool of a superseded worker can still run, and one of the
  first seventeen calls of a turn can run twice (`RunAhead.RepeatableIffInReach`).
- The worker's loop is said to go on after failures of single runs (`internal/worker/worker.go:92`). It ends
  with any error but a lost lease.
- A run past its deadline is said to become TIMED_OUT (`docs/state-machine.md:79`). It does only while a worker
  executes it; an unleased run past its deadline is never leased again and keeps its status.
- Circuit breaking, approvals and evidence are described, but no code has them.

## Model

| member | source | states |
|---|---|---|
| Domain.TerminalTestsAgree | internal/store/store.go:70-106 | The three tests on statuses and event types (store, worker, HTTP handler) are one bijection between terminal statuses and terminal events |
| EngineLoop.Emitter.Emit | internal/engine/engine.go:115-137 | Every emission takes the next number; it is handed over exactly when the context did not win, and reports which |
| EngineLoop.Emitter.EmitTerminal | internal/engine/engine.go:138-145 | A context error ends the run with one output that is always handed over, timed out or cancelled |
| EngineLoop.RunModelTurn | internal/engine/engine.go:328-382 | The receiving loop yields exactly the deltas, text, calls, usage and failure of the turn specification |
| EngineLoop.ExecuteNextTool | internal/engine/engine.go:281-316 | One pending call: recovery guard, checkpointed request, invocation, then failure, give-up or checkpointed reply |
| EngineLoop.ExecutePendingTools | internal/engine/engine.go:271-319 | The tool loop adds exactly the actions of the remaining pending calls to the trace |
| EngineLoop.RecordUsage | internal/engine/engine.go:224-237 | Usage is added to the state and emitted with the new total unless nothing was spent |
| EngineLoop.Judge | internal/engine/engine.go:238-265 | Budget, final output, empty turn and call limit are judged in that order, else the turn becomes a tool phase; the loop goes on only with usage within every set limit, and usage over one ends it inconclusive |
| EngineLoop.ExecuteModelTurn | internal/engine/engine.go:204-265 | A model-phase round of the loop: turn limit, checkpointed start, stream, usage, verdict |
| EngineLoop.Loop | internal/engine/engine.go:192-265 | The whole loop, updating its state in place, produces exactly the trace of the run semantics from the same cursor |
| EngineLoop.Execute | internal/engine/engine.go:97-269 | One call of the engine, fresh or resumed, puts out exactly the numbered outputs of its trace |
| Engine.LoopStepDescends | internal/engine/engine.go:192-265 | Every round keeps the cursor runnable and lowers (turns left and phase, pending calls left), so the loop ends |
| EngineInvariants.RunAscends | internal/engine/engine.go:192-265 | States handed out along a run never go back in (turn, model before tools, replies), nor before the start |
| EngineInvariants.ExecuteCloses | internal/engine/engine.go:138-188 | One call: at most one terminal event, always last and with its matching result; exactly one when never interrupted; RUN_CREATED only first and only when fresh; model turns bounded by those left |
| EngineInvariants.RunTurnsBounded | internal/engine/engine.go:204-214 | A run starts at most max(0, MaxTurns - Turn + 1) model turns from its starting state |
| EngineInvariants.OutputsNumbered | internal/engine/engine.go:109-145 | Every emission takes a number, dropped or not: output numbers increase strictly, and are 1, 2, 3, … when nothing was dropped |
| EngineInvariants.OutputsCarry | internal/engine/engine.go:115-137 | An output arrives if and only if an action emitted it, with its event, payload and checkpoint and the number of that emission |
| EngineInvariants.ExecuteInvokes | internal/engine/engine.go:280-316 | Tools run in call order, each at most once and right after its checkpointed request; a resumed tool phase runs only read-only tools of its turn |
| Transcript.ExecuteFaithful | internal/engine/engine.go:192-318 | Every state handed out passes validation and its messages are the user message and blocks of calls with their replies in order, only the last block partial; calls counted and within the limit |
| Transcript.RestartsFaithful | internal/engine/state.go:63-83 | After any number of restarts from engine-made checkpoints the latest checkpoint still has that form, so it passes validation |
| Transcript.ToolsWithinBudget | internal/engine/engine.go:224-264 | Whenever a tool is entered, usage is within every set limit and ToolCallsUsed is the number of calls in the conversation, within MaxToolCalls |
| Turns.TurnCompletes | internal/engine/engine.go:328-382 | With the context out of the way a turn is all its stream said, in order, or fails as the stream did; otherwise it fails as the context shows |
| Turns.BudgetVerdict | internal/engine/engine.go:238-242 | A completed turn is given up for a budget if and only if the counted input tokens, output tokens or cost are over their set limit, with the error of the first that is |
| Turns.AnswerVerdict | internal/engine/engine.go:244-265 | Within budget, the last completed output is the output of the run; without one the call fails when there are no calls or too many, and else the conversation gains what the model said and asked for |
| Turns.FailureVerdict | internal/engine/engine.go:204-222 | A turn past the limit, a stream that fails and a context that is done end the call, each with its own event and error |
| Turns.CallBegins | internal/engine/engine.go:151-188 | What a call does first: a bad request or limit, a checkpoint that does not fit, a context that is done, the creation event of a fresh run |
| Turns.TurnPasses | internal/engine/engine.go:192-202 | Once all calls are answered the model gets the next turn with the whole conversation, calls and usage counted as they were |
| Turns.CallOrGuard | internal/engine/engine.go:280-297 | A recovered call not known to be read-only ends the run inconclusive; any other is requested with its state and then entered |
| Turns.ExecuteAnswered | internal/engine/engine.go:296-316 | Behind every tool entered: its content under its call id and name, in the event and as the last message of the checkpoint, or the failure that ends the call |
| Turns.UsageCounted | internal/engine/engine.go:224-237 | Usage is conserved: every state handed out has the usage the call started with and all usage reported since, no more and no less |
| Recovery.ReadOnlyIsSafe | internal/engine/engine.go:282-288 | Registered read-only pending calls are enough for a replay not to be stopped |
| Recovery.FlagMatters | internal/engine/engine.go:191-197 | Recovery mode changes a run if and only if the replay comes to a call that is not registered as read-only |
| Recovery.ResumeTransparent | internal/engine/engine.go:109-319 | Resuming from a MODEL_STARTED, TOOL_REQUESTED or TOOL_COMPLETED checkpoint is the rest of the uninterrupted call, action by action, if and only if the replay reaches no unsafe call |
| Restarts.ResumedCall | internal/engine/engine.go:109-319 | From any checkpoint of any call, fresh or resumed, usage records included: the next call is the rest of this one with the usage of a repeated turn more in its totals, if and only if the pending calls may be replayed and no budget verdict tells the usage apart |
| Restarts.CrashesTransparent | internal/engine/engine.go:109-319 | For any number of crashes, each at any checkpoint of the call before: the last call is, action by action, the rest of the call that never crashed, with exactly the usage of the repeated turns more in its totals |
| Restarts.LastCrashMatters | internal/engine/engine.go:191-242 | After any such history one crash more keeps that if and only if its checkpoint is harmless |
| Restarts.CrashesKeepResult | internal/engine/engine.go:238-255 | However often it crashed, the run ends with the same terminal event and result |
| Recovery.UnsafeReplayStops | internal/engine/engine.go:282-288 | A replay that reaches an unsafe call ends inconclusive, having run read-only tools only and no model turn |
| UsageReplay.UnlimitedSameVerdicts | internal/engine/engine.go:384-395 | Without usage limits no verdict tells two usage totals apart |
| UsageReplay.RunShifts | internal/engine/engine.go:224-242 | A run started with more usage is the same run with that much more in every total, if and only if every budget verdict agrees |
| UsageReplay.UsageReplayed | internal/engine/engine.go:224-242 | Resuming from a USAGE_RECORDED checkpoint repeats the turn with exactly its usage more in every total, if and only if the budget verdicts agree |
| Examples.UnsafeResumeDiffers | internal/engine/engine.go:282-288 | A concrete call that does not go on as it would have when it is resumed at its checkpointed request |
| Examples.UsageReplayDiffers | internal/engine/engine.go:224-242 | A concrete call that succeeds, and ends inconclusive when it is resumed at its usage record, whose usage is counted twice |
| Store.NextIsUnique | internal/store/memory.go:101-119 | At most one run is next in the queue at a given time |
| Store.CallEffect | internal/store/memory.go:94-235 | Any call but a creation changes nothing, or replaces the entry of its own run while that run is not terminal |
| Store.CallKeepsValid | internal/store/memory.go:31-261 | Every call, by anyone and claiming any time, keeps keys and runs in bijection, logs numbered, FenceToken = Attempt, status, lease, final result and last event in agreement |
| MemoryRepository.Repository.CreateRun | internal/store/memory.go:31-82 | The in-place method answers and changes the four maps as the store operation does |
| MemoryRepository.Repository.GetRun | internal/store/memory.go:84-92 | Returns the record of the run, or not found |
| MemoryRepository.Repository.Candidates | internal/store/memory.go:101-108 | Collects exactly the leasable runs |
| MemoryRepository.First | internal/store/memory.go:112-119 | The first candidate in the order of creation time and id |
| MemoryRepository.Repository.LeaseNext | internal/store/memory.go:94-134 | Leases the one run that is next, under a new fence and attempt; refuses exactly on bad arguments or when nothing is leasable |
| MemoryRepository.Repository.ValidLease | internal/store/memory.go:252-261 | The lease check: missing run, or a lease that is not running, owned, current and unexpired |
| MemoryRepository.Repository.RenewLease | internal/store/memory.go:136-150 | Extends a held lease, and nothing else |
| MemoryRepository.Repository.AppendEvent | internal/store/memory.go:152-172 | Appends the next event to the log of a held run |
| MemoryRepository.Repository.SaveCheckpoint | internal/store/memory.go:174-190 | Replaces the checkpoint of a held run unless it is ahead of the log or older than the stored one |
| MemoryRepository.Repository.GetCheckpoint | internal/store/memory.go:192-201 | Returns the stored checkpoint, or not found |
| MemoryRepository.Repository.FinishRun | internal/store/memory.go:203-235 | Ends a held run with a matching result and terminal event, and gives its lease up |
| MemoryRepository.Repository.ListEvents | internal/store/memory.go:237-250 | Returns the events behind a sequence number in order, or not found |
| Leases.CheckDecides | internal/store/memory.go:252-261 | The lease check on the fields of the run: which error, and that it passes exactly for the owner and fence of a running run before its lease ends |
| Leases.HeldOrLeasable | internal/store/memory.go:101-108 | Before its deadline a running run can be taken over exactly when nobody can write to it any more |
| Leases.NotLeasable | internal/store/memory.go:101-108 | A finished run, or one whose deadline has come, is never leased; a queued one without deadline always may be |
| Leases.TextOrder | internal/store/memory.go:112-119 | The order of ids is the lexicographic one |
| Leases.OldestFirst | internal/store/memory.go:112-119 | The queue hands out the leasable run created first, and among equals the one with the first id |
| Leases.LeaseLasts | internal/store/memory.go:94-134 | A lease lets its worker alone write, under the next fence, until now + ttl, and nobody take the run before; everything else of the run stays |
| Leases.RenewalLasts | internal/store/memory.go:136-150 | A renewal succeeds exactly for a lease that stands and a positive ttl, and moves the end of the lease to now + ttl |
| Leases.EventAppended | internal/store/memory.go:152-172 | A write under a standing lease adds exactly one event, with the next number |
| Leases.CheckpointSaved | internal/store/memory.go:174-190 | A checkpoint is refused as ahead exactly if the log is shorter, as stale exactly if a later one is stored, and else stored as it is |
| Leases.FinishDecided | internal/store/memory.go:203-215 | A finish succeeds exactly for a standing lease and the event of the result's status |
| Leases.RunFinished | internal/store/memory.go:216-235 | A finished run has the result, no lease, and the event behind its log |
| Leases.FinishedForGood | internal/store/memory.go:203-235 | Nobody holds or takes a finished run at any time |
| StoreHistory.HistoryGrows | internal/store/memory.go:31-261 | Over any history requests never change, fences never go back, logs are only appended to |
| StoreHistory.TerminalStays | internal/store/memory.go:203-261 | A finished run with its log and checkpoint is never changed again |
| StoreHistory.OnlyCurrentFenceWrites | internal/store/memory.go:252-261 | A write under any other fence than the current one changes nothing |
| StoreHistory.StaleWritersRejected | internal/store/memory.go:94-150 | Once a newer fence is issued no renewal, append, checkpoint or finish under an older one succeeds, for arbitrary clock values |
| StoreHistory.FencesAscend | internal/store/memory.go:152-172 | The fences behind the events of a log are non-decreasing |
| StoreHistory.CreateAnswersCaller | internal/store/memory.go:31-82 | A successful creation returns a run with exactly the caller's request; it is new exactly when the pair was not present |
| StoreHistory.SamePairSameRun | internal/store/memory.go:31-55 | All successful creations of one tenant and key return the same run |
| StoreHistory.PairsNeverShareRuns | internal/store/memory.go:31-55 | Different pairs never get the same run, even when their joined keys collide |
| StoreHistory.CreatedExactlyOnce | internal/store/memory.go:31-82 | Of the successful creations of a pair exactly one answers that it created the run |
| Creations.RetriedCreation | internal/store/hash.go:11-32 | After a creation and any calls since, the same request under any run id gets the same run and created = false; one with another input, mode, deadline or manifest is a conflict |
| Creations.CreationDecided | internal/store/memory.go:31-82 | Every creation: a conflict if and only if the run of the pair has another body, or a new pair has another pair's joined key; a taken id if and only if the pair is new and the run id is not |
| Creations.NewPair | internal/store/memory.go:57-82 | A new pair is refused exactly when its run id is taken, and else gets a queued run with its request, the creation event as its log, and no other change |
| Creations.NoClash | internal/store/memory.go:36-37 | Joined keys clash only if a tenant has a NUL character |
| Workers.MoveIsCall | internal/worker/worker.go:112-171 | A step of a worker changes the store exactly as the repository call it makes does |
| WorkersSafety.AlwaysOk | internal/worker/worker.go:112-252 | The invariant of the whole system holds in every state that any number of workers, crashes and takeovers lead to |
| Guarantees.WritesNotReplayed | internal/engine/engine.go:191-197 | Once a tool-phase checkpoint of a turn is stored under a fence, no attempt under a newer fence ever runs a call of that or an earlier turn that is not read-only |
| Guarantees.CompletedNotRepeated | internal/engine/engine.go:311-316 | No attempt under a newer fence than a stored checkpoint ever enters a call that the checkpoint has behind it, read-only or not |
| Guarantees.LogShape | internal/worker/worker.go:136-168 | Every log is RUN_CREATED once and first, then non-terminal events, then at most one terminal event which is last; sequences are 1..LastEventSeq; a terminal event is there exactly when the status is terminal and agrees with status and result |
| Guarantees.LogByFence | internal/worker/worker.go:130-168 | Fences behind the log never go back, and the events of each fence are a prefix of that attempt's engine outputs without RUN_CREATED |
| Guarantees.CheckpointsProgress | internal/worker/worker.go:161-167 | Stored checkpoints never go back in progress, event sequence or fence, over all attempts; the store holds the last one |
| Guarantees.CheckpointMatchesEvent | internal/worker/worker.go:149-167 | The state stored at a sequence is the one the engine attached to the event logged there, under the same fence, and it is a faithful one |
| Guarantees.OnlyLeasesAreLost | internal/worker/worker.go:149-167 | From the worker's loop the store refuses for a lost lease only: never a checkpoint ahead of the log or stale, never an invalid terminal event, never a missing run |
| Guarantees.TerminalOutputsDecode | internal/worker/worker.go:200-207 | A terminal output always decodes to a result that matches it |
| Guarantees.BudgetsSurviveCrashes | internal/engine/engine.go:224-264 | Over all attempts no tool is entered over a usage limit, ToolCallsUsed is the exact count of recorded calls and never exceeds MaxToolCalls |
| Guarantees.RunsGrow | internal/store/memory.go:152-172 | In any run of the system logs only grow and finished runs stay as they are |
| Guarantees.StartedBy | internal/worker/worker.go:119-125 | Every attempt executes one engine call, from the checkpoint that was stored when it loaded |
| Backlog.AlwaysBacklogged | internal/worker/worker.go:126-168 | In every reachable state the channel holds at most 32 outputs, and all checkpoints are stored but those of the outputs in the channel and of the one the worker is at |
| Backlog.UnsettledFits | internal/engine/engine.go:98-136 | So no more than 33 outputs of an attempt have checkpoints that are not stored |
| LockStep.OneAttemptWrites | internal/engine/engine.go:280-316 | If outputs were persisted before the engine goes on, two attempts would never both run writes of one turn |
| LockStep.WritesRunOnce | internal/engine/engine.go:280-316 | If outputs were persisted before the engine goes on, no call that is not read-only would run twice |
| TurnCalls.CallPlace | internal/engine/engine.go:280-316 | Between the request a tool phase starts with and the entering of a call lie exactly two outputs for each call before it |
| TurnCalls.AskedAgain | internal/engine/engine.go:192-316 | Resumed from the last checkpoint before a turn's first request, with a model and tools that answer alike, a second engine call makes the very same call again |
| RunAhead.OutOfReachIsStored | internal/engine/engine.go:98-136 | Before a write with more than 16 calls of its turn before it is entered, a tool-phase checkpoint of the turn is stored under the same fence |
| RunAhead.TwiceIsInReach | internal/engine/engine.go:98-136 | In every reachable state, whatever models and tools answered: a write that two attempts ran has at most 16 calls of its turn before it |
| RunAhead.WriteMayRunTwice | internal/engine/engine.go:98-136 | Whatever write a fresh call makes, in any turn and behind any amount of output, with at most 16 calls of its turn before it: there is a run of the system in which a second attempt makes it again |
| RunAhead.RepeatableIffInReach | internal/engine/engine.go:98-136 | A write can be run twice if and only if at most 16 calls of its turn come before it |
| RunAhead.AWriteRunsTwice | internal/engine/engine.go:289-296 | A concrete run of the system in which a write runs twice |
| Transparency.AlwaysTraced | internal/worker/worker.go:112-125 | With one environment for all attempts of a run and harmless loads, every attempt does what a call does after some history of crashes, the last at a checkpoint that an earlier attempt had logged |
| Transparency.LogInPieces | internal/worker/worker.go:136-168 | Under the same condition the log behind its first event is, fence by fence, consecutive pieces of the call that never crashed, each starting no later than the furthest point reached before and with exactly the usage its crash history counted again |
| Pieces.OutputsInOrder | internal/worker/worker.go:130-168 | As far as such pieces reach, the outputs of the whole are at strictly increasing places in the log |
| Transparency.NothingAdded | internal/worker/worker.go:136-168 | Under the same condition every logged event behind the first is an output of the call that never crashed, recounted by exactly the usage of its piece |
| Transparency.NothingLost | internal/worker/worker.go:136-168 | When such a run is finished, however many workers it took, every output of the call that never crashed is in its log, in the same order, and the log ends with the same event and final result |
| Transparency.ReplayableIsHarmless | internal/engine/engine.go:384-395 | Without usage limits, and when the pending calls the whole call stores may be replayed, every load in every run of the system is harmless |
| WorkerLoop.Worker.Finish | internal/worker/worker.go:200-218 | A terminal output is decoded, checked against its event and turned into a finish call |
| WorkerLoop.Worker.SaveCheckpoint | internal/worker/worker.go:220-237 | The engine state is stored under the lease's fence and the persisted sequence |
| WorkerLoop.Worker.LoadCheckpoint | internal/worker/worker.go:239-252 | The stored state, or none |
| WorkerLoop.Worker.ExecuteLease | internal/worker/worker.go:112-171 | The loop over outputs, renewals and cancellation leaves the repository as the persisting function says, and ends as it says |
| WorkerLoop.DeliveryIsMoves | internal/worker/worker.go:136-168 | Delivering one output changes the run as the take, write and save steps of the system do, and the loop goes on exactly when the attempt does |
| WorkerLoop.HeldDelivery | internal/worker/worker.go:149-167 | While the lease is held every output becomes the next event of the log, its state the checkpoint at that event, and a terminal one ends the run |
| WorkerLoop.OutputDone | internal/worker/worker.go:136-168 | An attempt that goes on is one output further, so each is dealt with once |
| WorkerLoop.RenewalGoesOn | internal/worker/worker.go:173-198 | A renewal while the lease is held moves its end to now + LeaseTTL and the loop goes on |
| WorkerLoop.LoopEnds | internal/worker/worker.go:126-171 | The loop ends without a terminal output only if its context ended, the store refused a call, or no output was terminal |
| Outbox.Repository.Soonest | internal/outbox/postgres/repository.go:38-46 | The due row that sorts first by attempt time and id |
| Outbox.Repository.LeaseRows | internal/outbox/postgres/repository.go:37-60 | Leases exactly the batch, each row with owner, expiry, the next token and one more attempt, and hands it over |
| Outbox.Repository.LeaseBatch | internal/outbox/postgres/repository.go:22-94 | Refuses bad arguments, leases the batch, and reports when it is empty |
| Outbox.Repository.MarkPublished | internal/outbox/postgres/repository.go:96-110 | Sets the publication date of the row held under the token by an unexpired lease, and releases it, with nothing else of it changed; all other rows stay |
| Outbox.Repository.MarkRetry | internal/outbox/postgres/repository.go:112-132 | The row held under the token, expired or not, is due from the given time on, keeps the error and its token, and is released; all other rows stay |
| Outbox.BatchIsSoonestDue | internal/outbox/postgres/repository.go:37-46 | A batch holds due rows only, earliest date and then lowest id first, and leaves a due row out only when full and for rows that are sooner |
| Outbox.BatchHanded | internal/outbox/postgres/repository.go:52-80 | The sink is handed each announcement as it was written, with the next token, one more attempt and the lease it goes out under |
| OutboxProtocol.AlwaysValid | internal/outbox/postgres/repository.go:22-132 | In every reachable table attempts = lease token, owner and expiry are both set or neither, and a published row was delivered under its token |
| OutboxProtocol.RowsGrow | internal/outbox/postgres/repository.go:22-132 | A row's announcement never changes, its token never goes back, and once published it stays as it is |
| OutboxProtocol.SpentTokensRejected | internal/outbox/postgres/repository.go:96-132 | A superseded or released token can never publish or reschedule the row again, whoever claims it and whenever |
| OutboxProtocol.PublishedForGood | internal/outbox/postgres/repository.go:38-46 | A published row is never due, leased or altered again |
| OutboxProtocol.PublishedWasDelivered | internal/outbox/publisher.go:89-105 | A publication date means that the sink accepted the row under its last token |
| OutboxProtocol.NoLeaseBeforeItsTime | internal/outbox/postgres/repository.go:37-60 | A row that nobody holds, so one just rescheduled, stays as it is until a publisher leases it, and the first to do so claims no time before its date |
| OutboxProtocol.NoLeaseDuringAnother | internal/outbox/postgres/repository.go:37-60 | A leased row goes to no publisher before the lease ends, unless its holder reschedules it |
| Publisher.DelayExact | internal/outbox/publisher.go:128-143 | The delay is min(BaseBackoff * 2^(max(attempt, 1) - 1), MaxBackoff), at least the base, and monotone in the attempt |
| Publisher.Backoff | internal/outbox/publisher.go:128-143 | The doubling loop computes that delay in 64-bit durations without overflow |
| Publisher.Conclude | internal/outbox/publisher.go:90-104 | One message: after a failed delivery its row is due at now + min(BaseBackoff * 2^(max(attempts, 1) - 1), MaxBackoff) with the error; after a successful one it is published while its lease lasts, else left and reported |
| Publisher.PublishBatch | internal/outbox/publisher.go:88-106 | The loop over the batch settles each row in its turn and reports the failures in order |
| Publisher.RunOnce | internal/outbox/publisher.go:74-107 | One round leases the batch and settles all of it: each row rescheduled, published or kept by what its own delivery came to, all other rows as they were |
| Publisher.RoundConcludes | internal/outbox/publisher.go:89-105 | Each row of the batch is settled once, by its own message, and no other row changes |
| Publisher.RoundSettles | internal/outbox/publisher.go:74-107 | On the fields of the rows: a delivery that failed at t makes its row due exactly from t + min(BaseBackoff * 2^(max(attempts, 1) - 1), MaxBackoff) on, released, with the error and its token; one that succeeded in time is published at t and never due again |
| Publisher.FailuresReported | internal/outbox/publisher.go:93-106 | The round reports exactly the deliveries that failed and those that came too late to be marked |
| Publisher.RoundFollowsProtocol | internal/outbox/publisher.go:74-107 | A round is a run of the leasing protocol, so it marks only what the sink accepted |
| PostgresRefinement.LeaseAttempts | internal/store/postgres/repository.go:127-155 | The unique indexes on attempts and fences never refuse a lease, and attempts stay 1 to attempt_no with fence_token = attempt_no, the newest running and all before it LEASE_EXPIRED |
| PostgresRefinement.FinishAttempts | internal/store/postgres/repository.go:304-319 | Finishing closes exactly the newest attempt, which then stands for the result: SUCCEEDED, CANCELLED or else FAILED, finished with the run, with the result's error |
| PostgresRefinement.AttemptOpened | internal/store/postgres/repository.go:127-155 | A lease opens the next attempt, running since now for the worker, and closes the one before as LEASE_EXPIRED at now; all older ones stay |
| PostgresRefinement.AttemptClosed | internal/store/postgres/repository.go:304-319 | The newest attempt ends SUCCEEDED exactly for a succeeded result, CANCELLED exactly for a cancelled one and FAILED otherwise, with finished_at = now and the result's error; no other attempt changes |
| PostgresRefinement.NextEventFits | internal/store/postgres/repository.go:433-450 | The primary key of run_events never refuses the next event |
| PostgresRefinement.JoinedKeyInjective | internal/store/memory.go:36-37 | Without NUL characters a joined key determines tenant and key |
| PostgresSimulation.SamePair | internal/store/postgres/repository.go:55-80 | The unique index on (tenant, key) and the joined-key map find the same run |
| PostgresSimulation.CreationAgrees | internal/store/postgres/repository.go:27-90 | A creation succeeds exactly when the store's does, with the same answer, and is a conflict exactly when the store's is |
| PostgresSimulation.CreationSucceeds | internal/store/postgres/repository.go:55-80 | A creation succeeds in the database if and only if the in-memory store accepts it and no text of it has a NUL character |
| PostgresSimulation.SameQueue | internal/store/postgres/repository.go:109-120 | The queue query and the in-memory queue pick the same run |
| PostgresSimulation.CallMatches | internal/store/postgres/repository.go:27-328 | Every transaction commits if and only if the store's operation succeeds and the columns take all text of the call; it leaves tables that represent the store's new value, or changes nothing |
| PostgresSimulation.NulDeltaDiffers | migrations/001_runtime.up.sql:51-58 | A concrete event that the in-memory store appends and the database refuses |
| PostgresHistory.TablesRefineStore | internal/store/postgres/repository.go:27-450 | From empty tables, with publishers interleaved: the tables represent the store reached by those calls whose text can be stored; superseded attempts are LEASE_EXPIRED, the newest is running and owned or stands for the result of its finished run; and the outbox rows of each run are its events one for one, in order, with type and payload |
| PostgresCreations.CreationDecided | internal/store/postgres/repository.go:27-90 | Every creation in any reachable tables: refused exactly for a NUL character in its text, a conflict exactly if the pair's run has another body, refused exactly for a taken id of a new pair, and else made |
| PostgresCreations.RetriedCreation | internal/store/postgres/repository.go:62-80 | After a committed creation and any history since, the same request under any run id gets that run and created = false, and another body for the pair is a conflict |
| PostgresCreations.EventAnnounced | internal/store/postgres/repository.go:433-450 | Each committed event is announced in its own transaction, once, under a new id, due at once and untouched; nothing else is announced |
| PostgresTexts.CallTexts | migrations/001_runtime.up.sql:1-82 | The columns take a call if and only if no text of it has a NUL character and the arguments of its tool calls pass the check of escapes |
| PostgresTexts.EscapesDecided | migrations/001_runtime.up.sql:51-66 | That check accepts a text with whole escapes if and only if it reads as whole characters without NUL: each half of a surrogate pair by its other half |
| PostgresRepository.Repository.CreateRun | internal/store/postgres/repository.go:27-90 | The statements of the creation transaction, committed or rolled back as one |
| PostgresRepository.Repository.Candidate | internal/store/postgres/repository.go:109-126 | The row the queue query selects |
| PostgresRepository.Repository.LeaseNext | internal/store/postgres/repository.go:97-166 | Selects, expires the running attempt, leases, inserts the new attempt, or changes nothing |
| PostgresRepository.Repository.RenewLease | internal/store/postgres/repository.go:168-186 | Extends a held lease |
| PostgresRepository.Repository.AppendEvent | internal/store/postgres/repository.go:188-213 | Sequence, event and announcement in one transaction |
| PostgresRepository.Repository.SaveCheckpoint | internal/store/postgres/repository.go:215-262 | Upserts the checkpoint of a held run unless it is ahead or stale |
| PostgresRepository.Repository.FinishRun | internal/store/postgres/repository.go:275-328 | Run, attempt, event and announcement in one transaction |
| StreamAssembly.BuildersAssembled | internal/model/openaicompat/adapter.go:283-297 | While a stream goes on the builder of an index holds its last id and name and all its arguments in arrival order |
| StreamAssembly.EmissionSucceeds | internal/model/openaicompat/adapter.go:334-352 | Emission succeeds if and only if the indices are exactly 0..n-1 and every call has an id and a name |
| StreamAssembly.AskingSucceeds | internal/model/openaicompat/adapter.go:283-352 | Asking a stream for its calls succeeds if and only if its fragments, in whatever order they came, have the indices 0..n-1 and each index got an id and a name |
| StreamAssembly.CallsPutOut | internal/model/openaicompat/adapter.go:302-330 | Any stream that ends well has put out, for each finish that asked, all calls of the fragments before it, or, if none asked, all calls at its end |
| StreamAssembly.CallsRepeat | internal/model/openaicompat/adapter.go:302-330 | With no fragment behind the first finish that asks, a stream that ends well has put its calls out max(1, number of such finishes) times; so each is out exactly once if and only if at most one finish asked or there is no fragment |
| StreamAssembly.LateFragments | internal/model/openaicompat/adapter.go:302-308 | A stream that was asked once and ends well has put out each call exactly once if and only if the fragments behind the finish add nothing to any call |
| StreamAssembly.EssenceDecides | internal/model/openaicompat/adapter.go:302-318 | Finishes that say nothing change nothing |
| StreamAssembly.StreamCalls | internal/model/openaicompat/adapter.go:238-332 | A stream that asks for its calls at most once, no fragment behind, and ends well has emitted exactly the calls its fragments stand for, in index order |
| StreamAssembly.OutputsAreTheirDeltas | internal/model/openaicompat/adapter.go:282-314 | On any stream a completed output is the concatenation of the text deltas before it |
| StreamAssembly.UsageIsPriced | internal/model/openaicompat/adapter.go:268-277 | Each usage put out is that of a token count of the stream, in order: prompt and completion as they came, and each part of the cost divided by a million toward zero |
| StreamEnds.EndsWell | internal/model/openaicompat/adapter.go:238-332 | A stream ends well if and only if nothing up to its end mark is a fault, and a finish completed it or it has complete calls nobody asked for; it has then put out all its text and one completed output for each stop |
| StreamEnds.FirstFault | internal/model/openaicompat/adapter.go:262-332 | The first fault decides: reading stops with its failure, and for calls asked too early names the first index that is not complete |
| StreamReader.Reader.EmitToolCalls | internal/model/openaicompat/adapter.go:334-352 | The sending loop emits the complete calls from index 0 on and fails at the first that is not |
| StreamReader.Reader.ConsumeChoice | internal/model/openaicompat/adapter.go:281-319 | Text, fragments and finish reason of one choice, in that order |
| StreamReader.ConsumeStream | internal/model/openaicompat/adapter.go:238-332 | The reading loop's events and failure are a function of what the stream brings in order, not of how it was cut into choices, chunks and lines |
| StreamReader.Recut | internal/model/openaicompat/adapter.go:247-281 | Cutting a chunk between its choices, with empty lines in between, leaves what the stream brings unchanged |
| StreamReader.RecutWithin | internal/model/openaicompat/adapter.go:281-319 | However text and fragments of a choice are spread over choices and chunks, events and outcome are the same |
| StreamReader.AskedTwice | internal/model/openaicompat/adapter.go:302-308 | A second tool_calls finish emits the same calls again: a concrete stream |
| StreamAssembly.PerMillionTruncates | internal/model/openaicompat/adapter.go:363-367 | Costs are divided by a million toward zero |
| Schema.CheckerDecides | internal/schema/validator.go:50-80 | The checker accepts exactly the well-formed definitions, whose type names are those that some value has, in any traversal order |
| Schema.ValidatorDecides | internal/schema/validator.go:82-159 | On a checked definition no type assertion fails and a value is accepted exactly when it conforms: its type, enum, required fields, declared fields and items as they are defined, and undeclared fields only unless additionalProperties is false |
| Schema.ValidationDecides | internal/schema/validator.go:20-34 | Validation as a whole is total, decided by well-formedness and conformance, and the same for every map order |
| Schema.TypesDecided | internal/schema/validator.go:161-195 | The tests on types and type names say what the names say of values |
| Schema.ServiceArguments | cmd/worker/main.go:51 | The worker's own tool takes objects with a textual service and nothing else |
| Schema.Int64Texts | internal/schema/validator.go:174-178 | Of the texts of integers exactly those of signed 64-bit integers are integers |
| Schema.NoFractions | internal/schema/validator.go:174-178 | A number with a fraction or an exponent is no integer, whatever its value |
| Schema.OnlyDigits | internal/schema/validator.go:174-178 | An integer has nothing but the ten digits behind its optional sign |
| Schema.UncheckedPanics | internal/schema/validator.go:82-87 | Without the check a type assertion can fail: a concrete definition |
| EventStream.Connection.WriteAvailable | internal/httpapi/handler.go:219-252 | Writes the listed events past the cursor up to the first failed write, and reports the new cursor and the end of the run |
| EventStream.Connection.Stream | internal/httpapi/handler.go:194-216 | The polling loop writes and ends as the watching function says |
| EventStream.NoGapNoRepeat | internal/httpapi/handler.go:194-252 | For any store writes between polls the ids written are after_seq+1, after_seq+2, … ; a written terminal event means nothing past the cursor is missing |
| EventStream.NothingHeldBack | internal/httpapi/handler.go:194-252 | While no read or write fails, all that the polls listed is written, and a written terminal event closes the stream |
| EventStream.Reconnecting | internal/httpapi/handler.go:269-282 | Reconnecting with the last id written continues without gap or repeat |
| EventStream.ClosedDelivers | internal/httpapi/handler.go:244-250 | From whatever cursor, a closed stream delivered the whole run if and only if a terminal event was written, or the run did not grow between listing and check, or nothing lay behind the cursor |
| EventStream.ClosedMayMiss | internal/httpapi/handler.go:225-250 | For any uninterrupted call there is a run of the system and a connection with observed polls that is closed without the terminal event |
| EventStream.SystemPolls | internal/httpapi/handler.go:225-250 | Polls of a run that workers write meanwhile meet all assumptions of the stream theorems |

## Left out

- CreateRun: the request hash is the request without its run id, so it is injective; JSON and SHA-256 are not modelled.
- CallKeepsValid: counters are unbounded; sequences, fences, attempts and usage do not wrap at 64 bits.
- CostMicros: the products and the sum are unbounded, where the code's wrap at 64 bits.
- Execute: an invocation means that the registry was called for the call; unknown tools and arguments that fail their schema are refused in there, before the handler.
- MemoryRepository.Repository.Valid: only says that the four maps fit together; what runs, logs and checkpoints mean is `Store.Valid`, which `Store.CallKeepsValid` keeps.
- DeliveryIsMoves: the loop of `WorkerLoop` has the repository to itself between its steps; other workers' steps in between are in the transition system of `Workers`.
- RepeatableIffInReach: about the writes of fresh calls; that a write out of reach runs once, `TwiceIsInReach`, holds of every attempt.
- NothingLost: with usage limits each load must be from a harmless checkpoint, where no budget verdict tells a repeated turn's usage apart; without limits that is proved (`ReplayableIsHarmless`).
- RunOnce: other publishers' statements between those of a round are not in this method; `OutboxProtocol` has every interleaving of statements.
- LeaseBatch: the batch is the soonest due rows in order; rows skipped because another transaction has them locked, and the arbitrary order of returned rows, are not modelled.
- CallMatches: compares success, answers and state; which error is returned differs (a missing run is a lost lease in SQL) and is not compared.
- StorableToolCall: NUL and half surrogate pairs are refused as the database does; numbers beyond the range of its numeric type, which it refuses too, are not modelled.
- CallsRepeat: of streams that ask more than once with fragments in between `CallsPutOut` says what is out, and nothing more is decided.
- SameQueue: run ids are compared as strings character by character, not by a database collation, and times are not rounded to microseconds.
- ValidatorDecides: verdicts carry no path and no message, and decoding of JSON text is a parameter.
- ConsumeStream: cancellation while sending, and the limits of the line scanner, are not modelled; decoding of a chunk is a parameter.
- Stream: tenant check, headers, heartbeats and the text format of an event are left out.
- Postgres reads: GetCheckpoint and ListEvents of the SQL repository only read, and are not modelled.
- Deep copies: clones of states, records and events keep callers from sharing slices; values here are never shared, so aliasing does not arise.
- Encoding: checkpoints are stored as states; encoding and decoding are taken as an inverse pair, and nil and empty slices are one value.
- Statuses that no code sets: WAITING_APPROVAL and RETRY_WAIT are in the vocabulary, their scheduling is not.
- Tool registry: a map from names to read-only flags and a handler; sorting and registration are left out.
- Worker polling: RunOnce and Run of the worker, tickers and goroutine scheduling; leasing and executing are separate steps here.
- HTTP endpoints other than the event stream, configuration, commands and migrations as files.
