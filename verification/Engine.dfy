/**
  The Agent Loop as a function from an environment and a starting state to the
  finite trace of everything one call of `Execute` does: outputs handed to the
  consumer, outputs given up because the context was done, and tool handlers entered.

  The environment supplies what the loop cannot decide itself: the model's streams, the
  tools' results, and what the run context shows at each place where the loop looks at it.
 */
module Engine {
  import opened Domain
  import opened EngineState

  const ERR_INVALID_REQUEST := "invalid run request"
  const ERR_INVALID_STATE := "invalid engine checkpoint state"
  const ERR_MAX_TURNS := "maximum turns exceeded"
  const ERR_MAX_TOOL_CALLS := "maximum tool calls exceeded"
  const ERR_INPUT_TOKENS := "input token budget exceeded"
  const ERR_OUTPUT_TOKENS := "output token budget exceeded"
  const ERR_COST_BUDGET := "cost budget exceeded"
  const ERR_EMPTY_MODEL_TURN := "model turn ended without final result or tool call"
  const ERR_UNSAFE_TOOL_RECOVERY := "cannot automatically replay a non-read-only tool after recovery"
  const ERR_CANCELED := "context canceled"
  const ERR_DEADLINE := "context deadline exceeded"
  const ERR_TOOL_NOT_FOUND := "tool not found"

  datatype Limits = Limits(
    maxTurns: int,
    maxToolCalls: int,
    maxInputTokens: int,
    maxOutputTokens: int,
    maxCostMicros: int)

  predicate ValidRequest(request: RunRequest) {
    && request.runId != "" && request.tenantId != "" && request.idempotencyKey != ""
    && request.manifest.releaseId != "" && request.manifest.checksum != ""
    && request.input != ""
  }

  predicate ValidLimits(limits: Limits) {
    && 0 < limits.maxTurns
    && 0 <= limits.maxToolCalls
    && 0 <= limits.maxInputTokens
    && 0 <= limits.maxOutputTokens
    && 0 <= limits.maxCostMicros
  }

  /** What the budgets promise: a limit that is set covers what was spent against it. */
  predicate WithinLimits(limits: Limits, usage: Usage) {
    && (limits.maxInputTokens > 0 ==> usage.inputTokens <= limits.maxInputTokens)
    && (limits.maxOutputTokens > 0 ==> usage.outputTokens <= limits.maxOutputTokens)
    && (limits.maxCostMicros > 0 ==> usage.costMicros <= limits.maxCostMicros)
  }

  function ExceededBudget(limits: Limits, usage: Usage): Option<string> {
    if 0 < limits.maxInputTokens < usage.inputTokens then Some(ERR_INPUT_TOKENS)
    else if 0 < limits.maxOutputTokens < usage.outputTokens then Some(ERR_OUTPUT_TOKENS)
    else if 0 < limits.maxCostMicros < usage.costMicros then Some(ERR_COST_BUDGET)
    else None
  }

  // Environment

  datatype ModelEvent =
    | TextDelta(delta: string)
    | CallReady(call: ToolCall)
    | UsageReport(usage: Usage)
    | Completed(output: string)

  datatype ModelFailure = ContextFailure(deadline: bool) | OtherFailure(message: string)

  /** The events received before the stream closed or failed. */
  datatype ModelStream = ModelStream(received: seq<ModelEvent>, failure: Option<ModelFailure>)

  datatype ToolOutcome = Content(content: string) | ToolError(message: string)

  /** The run context at one observation; `wins` says that a select took its Done branch. */
  datatype ContextView = Open | Done(deadline: bool, wins: bool)

  /** The places where the loop observes the context. Each occurs at most once in one call. */
  datatype Point =
    | AtReject
    | AtStart
    | AtCreated
    | AtModelStarted(turn: int)
    | InStream(turn: int, k: nat)
    | AtDelta(turn: int, k: nat)
    | AtUsage(turn: int)
    | AtVerdict(turn: int)
    | AtGuard(turn: int, index: int)
    | AtRequested(turn: int, index: int)
    | AtReturn(turn: int, index: int)
    | AtFailed(turn: int, index: int)
    | AtGivenUp(turn: int, index: int)
    | AtCompleted(turn: int, index: int)

  /** `tools` maps each registered tool to its ReadOnly flag. */
  datatype Env = Env(
    adapter: string,
    limits: Limits,
    tools: map<string, bool>,
    model: (int, seq<Message>) -> ModelStream,
    handler: (int, int, ToolCall) -> ToolOutcome,
    context: Point -> ContextView)

  ghost predicate Uninterrupted(env: Env) {
    forall p :: env.context(p) == Open
  }

  predicate ReadOnly(env: Env, call: ToolCall) {
    call.name in env.tools && env.tools[call.name]
  }

  function ExecuteTool(env: Env, turn: int, index: int, call: ToolCall): ToolOutcome {
    if call.name in env.tools then env.handler(turn, index, call)
    else ToolError(ERR_TOOL_NOT_FOUND + ": " + call.name)
  }

  // Traces

  datatype Action =
    | Emit(event: EventType, payload: Payload, checkpoint: Option<ExecutionState>)
    | Dropped(event: EventType)
    | Invoke(state: ExecutionState, readOnly: bool)

  predicate Gone(view: ContextView) {
    view.Done? && view.wins
  }

  function EmitAt(env: Env, p: Point, event: EventType, payload: Payload, checkpoint: Option<ExecutionState>): Action {
    if Gone(env.context(p)) then Dropped(event) else Emit(event, payload, checkpoint)
  }

  function Fail(env: Env, p: Point, error: string): Action {
    EmitAt(env, p, RunFailed, ResultPayload(FinalResult(Failed, "", error)), None)
  }

  function GiveUp(env: Env, p: Point, error: string): Action {
    EmitAt(env, p, RunInconclusive, ResultPayload(FinalResult(Inconclusive, "", error)), None)
  }

  /** A context error ends the run with an emission that does not watch the context. */
  function Terminate(deadline: bool): Action {
    if deadline then Emit(RunTimedOut, ResultPayload(FinalResult(TimedOut, "", ERR_DEADLINE)), None)
    else Emit(RunCancelled, ResultPayload(FinalResult(Cancelled, "", ERR_CANCELED)), None)
  }

  // One model turn

  datatype TurnResult = TurnResult(text: string, calls: seq<ToolCall>, final: Option<string>, usage: Usage)

  const EMPTY_TURN := TurnResult("", [], None, NO_USAGE)

  datatype TurnRun = TurnRun(actions: seq<Action>, outcome: Result<TurnResult, ModelFailure>)

  function Absorb(acc: TurnResult, event: ModelEvent): TurnResult {
    match event
    case TextDelta(delta) => acc.(text := acc.text + delta)
    case CallReady(call) => acc.(calls := acc.calls + [call])
    case UsageReport(usage) => acc.(usage := Plus(acc.usage, usage))
    case Completed(output) => acc.(final := Some(output))
  }

  /** Receives the stream from its k-th event on. */
  function Receive(env: Env, turn: int, stream: ModelStream, k: nat, acc: TurnResult): TurnRun
    requires k <= |stream.received|
    decreases |stream.received| - k
  {
    var view := env.context(InStream(turn, k));
    if Gone(view) then TurnRun([], Err(ContextFailure(view.deadline)))
    else if k == |stream.received| then
      TurnRun([], match stream.failure case None => Ok(acc) case Some(failure) => Err(failure))
    else
      var event := stream.received[k];
      if event.TextDelta? then
        var deltaView := env.context(AtDelta(turn, k));
        var action := EmitAt(env, AtDelta(turn, k), ModelDelta, DeltaPayload(turn, event.delta), None);
        if Gone(deltaView) then TurnRun([action], Err(ContextFailure(deltaView.deadline)))
        else
          var rest := Receive(env, turn, stream, k + 1, Absorb(acc, event));
          TurnRun([action] + rest.actions, rest.outcome)
      else
        Receive(env, turn, stream, k + 1, Absorb(acc, event))
  }

  function RunModelTurn(env: Env, turn: int, messages: seq<Message>): TurnRun {
    Receive(env, turn, env.model(turn, messages), 0, EMPTY_TURN)
  }

  // The loop

  /** Where the loop stands: its state, and whether it still replays recovered tool calls. */
  datatype Cursor = Cursor(state: ExecutionState, recovering: bool)

  datatype Step = Step(actions: seq<Action>, next: Option<Cursor>)

  predicate Runnable(s: ExecutionState) {
    && 0 <= s.nextTool <= |s.pending|
    && !s.phase.OtherPhase?
  }

  function AfterTool(s: ExecutionState, call: ToolCall, content: string): ExecutionState {
    s.(messages := s.messages + [ToolMessage(call, content)], nextTool := s.nextTool + 1)
  }

  function NextTurn(s: ExecutionState): ExecutionState {
    s.(phase := ModelPhase, pending := [], nextTool := 0, turn := s.turn + 1)
  }

  function WithCalls(s: ExecutionState, result: TurnResult): ExecutionState {
    s.(toolCallsUsed := s.toolCallsUsed + |result.calls|,
    messages := s.messages + [AssistantMessage(result.text, result.calls)],
    phase := ToolsPhase, pending := result.calls, nextTool := 0)
  }

  function ConcludeCall(env: Env, s: ExecutionState, recovering: bool, outcome: ToolOutcome): Step
    requires 0 <= s.nextTool < |s.pending|
  {
    var call := s.pending[s.nextTool];
    var turn, index := s.turn, s.nextTool;
    match outcome
    case ToolError(message) =>
      var view := env.context(AtReturn(turn, index));
      if view.Done? then Step([Terminate(view.deadline)], None)
      else
        Step([EmitAt(env, AtFailed(turn, index), ToolFailed, FailedPayload(call.id, call.name, message), None),
              Fail(env, AtGivenUp(turn, index), "execute tool " + call.name + ": " + message)], None)
    case Content(content) =>
      var s' := AfterTool(s, call, content);
      var completed := EmitAt(env, AtCompleted(turn, index), ToolCompleted,
                              CompletedPayload(call.id, call.name, content), Some(s'));
      Step([completed], if completed.Dropped? then None else Some(Cursor(s', recovering)))
  }

  function ToolStep(env: Env, s: ExecutionState, recovering: bool): Step
    requires 0 <= s.nextTool < |s.pending|
  {
    var call := s.pending[s.nextTool];
    var turn, index := s.turn, s.nextTool;
    if recovering && !ReadOnly(env, call) then
      Step([GiveUp(env, AtGuard(turn, index), ERR_UNSAFE_TOOL_RECOVERY + ": " + call.name)], None)
    else
      var requested := EmitAt(env, AtRequested(turn, index), ToolRequested, RequestedPayload(call), Some(s));
      if requested.Dropped? then Step([requested], None)
      else
        var conclusion := ConcludeCall(env, s, recovering, ExecuteTool(env, turn, index, call));
        Step([requested, Invoke(s, ReadOnly(env, call))] + conclusion.actions, conclusion.next)
  }

  /** What the loop makes of a completed model turn once its usage is recorded. */
  function Decide(env: Env, s: ExecutionState, result: TurnResult): Step {
    var exceeded := ExceededBudget(env.limits, s.usage);
    var p := AtVerdict(s.turn);
    if exceeded.Some? then Step([GiveUp(env, p, exceeded.value)], None)
    else if result.final.Some? then
      Step([EmitAt(env, p, RunSucceeded, ResultPayload(FinalResult(Succeeded, result.final.value, "")), None)], None)
    else if result.calls == [] then Step([Fail(env, p, ERR_EMPTY_MODEL_TURN)], None)
    else if s.toolCallsUsed + |result.calls| > env.limits.maxToolCalls then Step([Fail(env, p, ERR_MAX_TOOL_CALLS)], None)
    else Step([], Some(Cursor(WithCalls(s, result), false)))
  }

  function Record(s: ExecutionState, result: TurnResult): ExecutionState {
    s.(usage := Plus(s.usage, result.usage))
  }

  /** The usage emission of a turn: none when nothing was spent. */
  function UsageActions(env: Env, s: ExecutionState, result: TurnResult): seq<Action> {
    var s' := Record(s, result);
    if result.usage == NO_USAGE then []
    else [EmitAt(env, AtUsage(s.turn), UsageRecorded, UsagePayload(s.turn, result.usage, s'.usage), Some(s'))]
  }

  function AfterTurn(env: Env, s: ExecutionState, result: TurnResult): Step {
    var recorded := UsageActions(env, s, result);
    if recorded != [] && recorded[0].Dropped? then Step(recorded, None)
    else
      var verdict := Decide(env, Record(s, result), result);
      Step(recorded + verdict.actions, verdict.next)
  }

  function ConcludeTurn(env: Env, s: ExecutionState, outcome: Result<TurnResult, ModelFailure>): Step {
    match outcome
    case Err(ContextFailure(deadline)) => Step([Terminate(deadline)], None)
    case Err(OtherFailure(message)) => Step([Fail(env, AtVerdict(s.turn), message)], None)
    case Ok(result) => AfterTurn(env, s, result)
  }

  function ModelStep(env: Env, s: ExecutionState): Step {
    if s.turn > env.limits.maxTurns then Step([Fail(env, AtVerdict(s.turn), ERR_MAX_TURNS)], None)
    else
      var started := EmitAt(env, AtModelStarted(s.turn), ModelStarted, StartedPayload(env.adapter, s.turn), Some(s));
      if started.Dropped? then Step([started], None)
      else
        var turn := RunModelTurn(env, s.turn, s.messages);
        var conclusion := ConcludeTurn(env, s, turn.outcome);
        Step([started] + turn.actions + conclusion.actions, conclusion.next)
  }

  function LoopStep(env: Env, c: Cursor): Step
    requires Runnable(c.state)
  {
    if c.state.phase.ModelPhase? then ModelStep(env, c.state)
    else if c.state.nextTool < |c.state.pending| then ToolStep(env, c.state, c.recovering)
    else Step([], Some(Cursor(NextTurn(c.state), false)))
  }

  /** Turns left, doubled so that the tool phase of a turn lies between two model phases. */
  function Rank(limits: Limits, s: ExecutionState): nat {
    if s.turn > limits.maxTurns then (if s.phase.ModelPhase? then 0 else 1)
    else 2 * (limits.maxTurns + 1 - s.turn) - (if s.phase.ModelPhase? then 0 else 1)
  }

  function CallsLeft(s: ExecutionState): nat
    requires Runnable(s)
  {
    |s.pending| - s.nextTool
  }

  /** Every step leads to a runnable cursor with a smaller measure, so the loop ends. */
  lemma LoopStepDescends(env: Env, c: Cursor)
    requires Runnable(c.state)
    ensures var next := LoopStep(env, c).next;
            next.Some? ==>
              var s := next.value.state;
              && Runnable(s)
              && (Rank(env.limits, s) < Rank(env.limits, c.state) ||
                  (Rank(env.limits, s) == Rank(env.limits, c.state) && CallsLeft(s) < CallsLeft(c.state)))
  {
  }

  /** The rest of the trace from a cursor. */
  function Run(env: Env, c: Cursor): seq<Action>
    requires Runnable(c.state)
    decreases Rank(env.limits, c.state), CallsLeft(c.state)
  {
    LoopStepDescends(env, c);
    var step := LoopStep(env, c);
    if step.next.None? then step.actions else step.actions + Run(env, step.next.value)
  }

  function StartState(request: RunRequest, checkpoint: Option<ExecutionState>): ExecutionState {
    if checkpoint.Some? then checkpoint.value else InitialState(request)
  }

  /** True when `Execute` gets past its checks on the request, the limits and the checkpoint. */
  predicate Accepted(env: Env, request: RunRequest, checkpoint: Option<ExecutionState>) {
    && ValidRequest(request)
    && ValidLimits(env.limits)
    && ValidState(StartState(request, checkpoint), request)
  }

  /** The whole trace of one call, started afresh or from a checkpoint. */
  function Execute(env: Env, request: RunRequest, checkpoint: Option<ExecutionState>): seq<Action> {
    var s := StartState(request, checkpoint);
    if !ValidRequest(request) || !ValidLimits(env.limits) then [Fail(env, AtReject, ERR_INVALID_REQUEST)]
    else if !ValidState(s, request) then [Fail(env, AtReject, ERR_INVALID_STATE)]
    else if env.context(AtStart).Done? then [Terminate(env.context(AtStart).deadline)]
    else if checkpoint.None? then
      var created := EmitAt(env, AtCreated, RunCreated,
                            EngineCreatedPayload(request.manifest.releaseId, request.mode), None);
      if created.Dropped? then [created] else [created] + Run(env, Cursor(s, false))
    else Run(env, Cursor(s, s.phase.ToolsPhase?))
  }

  // Numbered outputs

  datatype Output = Output(sequence: nat, event: EventType, payload: Payload, checkpoint: Option<ExecutionState>)

  /** How many numbers a trace used: a dropped emission still takes one. */
  function Numbers(trace: seq<Action>): nat {
    if trace == [] then 0
    else Numbers(trace[..|trace| - 1]) + (if trace[|trace| - 1].Invoke? then 0 else 1)
  }

  /** The outputs of a trace in order, with the engine-local sequence numbers. */
  function Outputs(trace: seq<Action>): seq<Output> {
    if trace == [] then []
    else
      var last := trace[|trace| - 1];
      var before := Outputs(trace[..|trace| - 1]);
      if last.Emit? then before + [Output(Numbers(trace), last.event, last.payload, last.checkpoint)] else before
  }
}
