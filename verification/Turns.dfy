/**
  What one iteration of the loop does, told from the model's stream and the tool's answer alone:
  what was said and spent, which verdict follows, and what the conversation gains.
 */
module Turns {
  import opened Domain
  import opened EngineState
  import opened Engine
  import opened EngineInvariants

  // What the first n events of a stream say

  function Said(received: seq<ModelEvent>, n: nat): string
    requires n <= |received|
  {
    if n == 0 then ""
    else Said(received, n - 1) + (if received[n - 1].TextDelta? then received[n - 1].delta else "")
  }

  function AskedFor(received: seq<ModelEvent>, n: nat): seq<ToolCall>
    requires n <= |received|
  {
    if n == 0 then []
    else AskedFor(received, n - 1) + (if received[n - 1].CallReady? then [received[n - 1].call] else [])
  }

  /** The last completion decides. */
  function Answer(received: seq<ModelEvent>, n: nat): Option<string>
    requires n <= |received|
  {
    if n == 0 then None
    else if received[n - 1].Completed? then Some(received[n - 1].output)
    else Answer(received, n - 1)
  }

  function InputSpent(received: seq<ModelEvent>, n: nat): int
    requires n <= |received|
  {
    if n == 0 then 0
    else InputSpent(received, n - 1) + (if received[n - 1].UsageReport? then received[n - 1].usage.inputTokens else 0)
  }

  function OutputSpent(received: seq<ModelEvent>, n: nat): int
    requires n <= |received|
  {
    if n == 0 then 0
    else OutputSpent(received, n - 1) + (if received[n - 1].UsageReport? then received[n - 1].usage.outputTokens else 0)
  }

  function CostSpent(received: seq<ModelEvent>, n: nat): int
    requires n <= |received|
  {
    if n == 0 then 0
    else CostSpent(received, n - 1) + (if received[n - 1].UsageReport? then received[n - 1].usage.costMicros else 0)
  }

  /** The emissions of the text pieces, one for each, in order. */
  function Deltas(turn: int, received: seq<ModelEvent>, n: nat): seq<Action>
    requires n <= |received|
  {
    if n == 0 then []
    else Deltas(turn, received, n - 1)
         + (if received[n - 1].TextDelta? then [Emit(ModelDelta, DeltaPayload(turn, received[n - 1].delta), None)] else [])
  }

  ghost predicate Summed(result: TurnResult, received: seq<ModelEvent>, n: nat)
    requires n <= |received|
  {
    && result.text == Said(received, n)
    && result.calls == AskedFor(received, n)
    && result.final == Answer(received, n)
    && result.usage == Usage(InputSpent(received, n), OutputSpent(received, n), CostSpent(received, n))
  }

  // Receiving

  /** The select took its Done branch there. */
  predicate Watched(env: Env, p: Point) {
    env.context(p).Done? && env.context(p).wins
  }

  /** The context never got in the way of the stream from its k-th event on. */
  ghost predicate Undisturbed(env: Env, turn: int, received: seq<ModelEvent>, k: nat) {
    && (forall i :: k <= i <= |received| ==> !Watched(env, InStream(turn, i)))
    && (forall i :: k <= i < |received| && received[i].TextDelta? ==> !Watched(env, AtDelta(turn, i)))
  }

  /** A failure that the context showed at one of the places where it was watched. */
  ghost predicate Shown(env: Env, failure: ModelFailure) {
    failure.ContextFailure? && exists p :: Watched(env, p) && failure.deadline == env.context(p).deadline
  }

  lemma {:induction false} ReceivedInFull(env: Env, turn: int, stream: ModelStream, k: nat, acc: TurnResult)
    requires k <= |stream.received| && Summed(acc, stream.received, k)
    ensures var run := Receive(env, turn, stream, k, acc);
            && (Undisturbed(env, turn, stream.received, k) ==>
                  && (stream.failure.None? ==> run.outcome.Ok? && Summed(run.outcome.value, stream.received, |stream.received|))
                  && (stream.failure.Some? ==> run.outcome == Err(stream.failure.value))
                  && Deltas(turn, stream.received, k) + run.actions == Deltas(turn, stream.received, |stream.received|))
            && (!Undisturbed(env, turn, stream.received, k) ==> run.outcome.Err? && Shown(env, run.outcome.error))
    decreases |stream.received| - k
  {
    var received := stream.received;
    if k == |received| {
      assert Deltas(turn, received, k) + [] == Deltas(turn, received, k);
    } else if !Watched(env, InStream(turn, k)) && (received[k].TextDelta? ==> !Watched(env, AtDelta(turn, k))) {
      ReceivedInFull(env, turn, stream, k + 1, Absorb(acc, received[k]));
      assert Undisturbed(env, turn, received, k) <==> Undisturbed(env, turn, received, k + 1);
    }
  }

  /** With the context out of the way a turn is all its stream said, or fails as the stream did; otherwise it fails as the context shows. */
  lemma TurnCompletes(env: Env, turn: int, messages: seq<Message>)
    ensures var stream := env.model(turn, messages);
            var run := RunModelTurn(env, turn, messages);
            && (Undisturbed(env, turn, stream.received, 0) ==>
                  && (stream.failure.None? ==> run.outcome.Ok? && Summed(run.outcome.value, stream.received, |stream.received|))
                  && (stream.failure.Some? ==> run.outcome == Err(stream.failure.value))
                  && run.actions == Deltas(turn, stream.received, |stream.received|))
            && (!Undisturbed(env, turn, stream.received, 0) ==> run.outcome.Err? && Shown(env, run.outcome.error))
  {
    var stream := env.model(turn, messages);
    ReceivedInFull(env, turn, stream, 0, EMPTY_TURN);
    var actions := RunModelTurn(env, turn, messages).actions;
    assert [] + actions == actions;
  }

  // Judging

  /** The usage a state has counted once the turn that it starts is over. */
  function Total(env: Env, s: ExecutionState): Usage {
    var received := env.model(s.turn, s.messages).received;
    Usage(s.usage.inputTokens + InputSpent(received, |received|),
          s.usage.outputTokens + OutputSpent(received, |received|),
          s.usage.costMicros + CostSpent(received, |received|))
  }

  /** A model turn that starts, hears its whole stream and reports its usage if it has any. */
  ghost predicate Completes(env: Env, s: ExecutionState) {
    && s.phase.ModelPhase? && s.turn <= env.limits.maxTurns
    && !Watched(env, AtModelStarted(s.turn))
    && env.model(s.turn, s.messages).failure.None?
    && Undisturbed(env, s.turn, env.model(s.turn, s.messages).received, 0)
    && (Total(env, s) == s.usage || !Watched(env, AtUsage(s.turn)))
  }

  lemma CompletedStep(env: Env, s: ExecutionState) returns (result: TurnResult)
    requires Completes(env, s)
    ensures var received := env.model(s.turn, s.messages).received;
            && Summed(result, received, |received|)
            && ModelStep(env, s).actions ==
               [Emit(ModelStarted, StartedPayload(env.adapter, s.turn), Some(s))]
               + Deltas(s.turn, received, |received|) + AfterTurn(env, s, result).actions
            && ModelStep(env, s).next == AfterTurn(env, s, result).next
  {
    TurnCompletes(env, s.turn, s.messages);
    result := RunModelTurn(env, s.turn, s.messages).outcome.value;
  }

  /** The state after the turn's usage is counted, before its verdict. */
  function Counted(env: Env, s: ExecutionState): ExecutionState {
    s.(usage := Total(env, s))
  }

  function Reports(env: Env, s: ExecutionState): seq<Action> {
    var received := env.model(s.turn, s.messages).received;
    var spent := Usage(InputSpent(received, |received|), OutputSpent(received, |received|), CostSpent(received, |received|));
    if spent == Usage(0, 0, 0) then []
    else [Emit(UsageRecorded, UsagePayload(s.turn, spent, Total(env, s)), Some(Counted(env, s)))]
  }

  /** What a completed turn emits before its verdict: its start, its text pieces and, unless nothing was spent, its usage. */
  function Opening(env: Env, s: ExecutionState): seq<Action> {
    var received := env.model(s.turn, s.messages).received;
    [Emit(ModelStarted, StartedPayload(env.adapter, s.turn), Some(s))]
    + Deltas(s.turn, received, |received|) + Reports(env, s)
  }

  /** The last emission of a call, unless the context keeps it from going out. */
  function Ending(env: Env, p: Point, event: EventType, result: FinalResult): Action {
    if Watched(env, p) then Dropped(event) else Emit(event, ResultPayload(result), None)
  }

  /** The turn ends the call with this event and result. */
  ghost predicate EndsWith(env: Env, s: ExecutionState, event: EventType, result: FinalResult) {
    ModelStep(env, s) == Step(Opening(env, s) + [Ending(env, AtVerdict(s.turn), event, result)], None)
  }

  /** The turn hands its calls to the tool phase: the conversation gains what the model said and asked for. */
  ghost predicate GoesOn(env: Env, s: ExecutionState, next: Option<Cursor>) {
    var received := env.model(s.turn, s.messages).received;
    var calls := AskedFor(received, |received|);
    && next.Some? && !next.value.recovering
    && var t := next.value.state;
    && t == Counted(env, s).(messages := t.messages, phase := ToolsPhase, pending := calls, nextTool := 0,
                             toolCallsUsed := s.toolCallsUsed + |calls|)
    && t.messages == s.messages + [Message(Assistant, Said(received, |received|), "", "", calls)]
  }

  lemma CountedStep(env: Env, s: ExecutionState) returns (result: TurnResult)
    requires Completes(env, s)
    ensures var received := env.model(s.turn, s.messages).received;
            && Summed(result, received, |received|)
            && ModelStep(env, s).actions == Opening(env, s) + Decide(env, Counted(env, s), result).actions
            && ModelStep(env, s).next == Decide(env, Counted(env, s), result).next
  {
    result := CompletedStep(env, s);
    assert Record(s, result) == Counted(env, s);
    assert UsageActions(env, s, result) == Reports(env, s);
    var received := env.model(s.turn, s.messages).received;
    var opening := [Emit(ModelStarted, StartedPayload(env.adapter, s.turn), Some(s))] + Deltas(s.turn, received, |received|);
    assert opening + (Reports(env, s) + Decide(env, Counted(env, s), result).actions)
        == (opening + Reports(env, s)) + Decide(env, Counted(env, s), result).actions;
  }

  lemma SameTail(a: seq<Action>, b: seq<Action>, c: seq<Action>)
    requires a + b == a + c
    ensures b == c
  {
    assert b == (a + b)[|a|..] && c == (a + c)[|a|..];
  }

  /** A completed turn is given up for a budget if a set limit is passed, with the error of the first that is, and only then. */
  lemma BudgetVerdict(env: Env, s: ExecutionState)
    requires Completes(env, s)
    ensures var limits, total := env.limits, Total(env, s);
            var overInput := limits.maxInputTokens > 0 && total.inputTokens > limits.maxInputTokens;
            var overOutput := limits.maxOutputTokens > 0 && total.outputTokens > limits.maxOutputTokens;
            var overCost := limits.maxCostMicros > 0 && total.costMicros > limits.maxCostMicros;
            && (overInput ==> EndsWith(env, s, RunInconclusive, FinalResult(Inconclusive, "", "input token budget exceeded")))
            && (!overInput && overOutput ==>
                  EndsWith(env, s, RunInconclusive, FinalResult(Inconclusive, "", "output token budget exceeded")))
            && (!overInput && !overOutput && overCost ==>
                  EndsWith(env, s, RunInconclusive, FinalResult(Inconclusive, "", "cost budget exceeded")))
            && ((exists result :: EndsWith(env, s, RunInconclusive, result)) <==> overInput || overOutput || overCost)
  {
    var result := CountedStep(env, s);
    var verdict := Decide(env, Counted(env, s), result);
    forall final: FinalResult | EndsWith(env, s, RunInconclusive, final)
      ensures verdict.actions == [Ending(env, AtVerdict(s.turn), RunInconclusive, final)]
    {
      SameTail(Opening(env, s), verdict.actions, [Ending(env, AtVerdict(s.turn), RunInconclusive, final)]);
    }
    var exceeded := ExceededBudget(env.limits, Total(env, s));
    if exceeded.Some? {
      assert EndsWith(env, s, RunInconclusive, FinalResult(Inconclusive, "", exceeded.value));
    }
  }

  /** Within budget, the model's last answer is the run's output; without one its calls run, if there are any and not too many. */
  lemma AnswerVerdict(env: Env, s: ExecutionState)
    requires Completes(env, s) && WithinLimits(env.limits, Total(env, s))
    ensures var received := env.model(s.turn, s.messages).received;
            var answer, calls := Answer(received, |received|), AskedFor(received, |received|);
            && (answer.Some? ==> EndsWith(env, s, RunSucceeded, FinalResult(Succeeded, answer.value, "")))
            && (answer.None? && calls == [] ==>
                  EndsWith(env, s, RunFailed, FinalResult(Failed, "", "model turn ended without final result or tool call")))
            && (answer.None? && calls != [] && s.toolCallsUsed + |calls| > env.limits.maxToolCalls ==>
                  EndsWith(env, s, RunFailed, FinalResult(Failed, "", "maximum tool calls exceeded")))
            && (answer.None? && calls != [] && s.toolCallsUsed + |calls| <= env.limits.maxToolCalls ==>
                  ModelStep(env, s).actions == Opening(env, s) && GoesOn(env, s, ModelStep(env, s).next))
  {
    var result := CountedStep(env, s);
    assert Opening(env, s) + [] == Opening(env, s);
  }

  /** The emission with which a context that is done ends a call, whatever the consumer does. */
  function Ended(deadline: bool): Action {
    if deadline then Emit(RunTimedOut, ResultPayload(FinalResult(TimedOut, "", "context deadline exceeded")), None)
    else Emit(RunCancelled, ResultPayload(FinalResult(Cancelled, "", "context canceled")), None)
  }

  /** Turns past the limit and turns whose stream fails end the call with the failure. */
  lemma FailureVerdict(env: Env, s: ExecutionState)
    requires s.phase.ModelPhase?
    ensures var stream, step := env.model(s.turn, s.messages), ModelStep(env, s);
            && step.actions != []
            && var last := step.actions[|step.actions| - 1];
            && (s.turn > env.limits.maxTurns ==>
                  step == Step([Ending(env, AtVerdict(s.turn), RunFailed, FinalResult(Failed, "", "maximum turns exceeded"))], None))
            && (s.turn <= env.limits.maxTurns && !Watched(env, AtModelStarted(s.turn)) ==>
                  && (!Undisturbed(env, s.turn, stream.received, 0) ==>
                        step.next.None? && exists p :: Watched(env, p) && last == Ended(env.context(p).deadline))
                  && (Undisturbed(env, s.turn, stream.received, 0) && stream.failure.Some? ==>
                        && step.next.None?
                        && last == match stream.failure.value
                                   case ContextFailure(deadline) => Ended(deadline)
                                   case OtherFailure(message) =>
                                     Ending(env, AtVerdict(s.turn), RunFailed, FinalResult(Failed, "", message))))
  {
    TurnCompletes(env, s.turn, s.messages);
  }

  // Beginning, and going from turn to turn

  /** A checkpoint the engine resumes from: of this run and release, with a turn and counts that fit its phase. */
  predicate Fits(s: ExecutionState, request: RunRequest) {
    && s.version == 1 && s.runId == request.runId && s.manifestChecksum == request.manifest.checksum
    && s.turn > 0 && s.toolCallsUsed >= 0 && |s.messages| > 0
    && ((s.phase == ModelPhase && |s.pending| == 0 && s.nextTool == 0)
        || (s.phase == ToolsPhase && |s.pending| > 0 && 0 <= s.nextTool && s.nextTool <= |s.pending|))
  }

  /** The conversation of a fresh call is the user's input alone. */
  function Fresh(request: RunRequest): ExecutionState {
    ExecutionState(1, request.runId, request.manifest.checksum, ModelPhase, 1,
                   [Message(User, request.input, "", "", [])], [], 0, 0, Usage(0, 0, 0))
  }

  /** What a call does first: a bad request or checkpoint or a context that is done ends it, a fresh call announces its run. */
  lemma CallBegins(env: Env, request: RunRequest, checkpoint: Option<ExecutionState>)
    ensures var trace, limits := Execute(env, request, checkpoint), env.limits;
            var missing := "" in [request.runId, request.tenantId, request.idempotencyKey,
                                  request.manifest.releaseId, request.manifest.checksum, request.input];
            var outOfRange := limits.maxTurns < 1 || limits.maxToolCalls < 0 || limits.maxInputTokens < 0
                              || limits.maxOutputTokens < 0 || limits.maxCostMicros < 0;
            var view := env.context(AtStart);
            if missing || outOfRange then
              trace == [Ending(env, AtReject, RunFailed, FinalResult(Failed, "", "invalid run request"))]
            else if checkpoint.Some? && !Fits(checkpoint.value, request) then
              trace == [Ending(env, AtReject, RunFailed, FinalResult(Failed, "", "invalid engine checkpoint state"))]
            else if view.Done? then trace == [Ended(view.deadline)]
            else if checkpoint.Some? then
              && Runnable(checkpoint.value)
              && trace == Run(env, Cursor(checkpoint.value, checkpoint.value.phase == ToolsPhase))
            else if Watched(env, AtCreated) then trace == [Dropped(RunCreated)]
            else
              trace == [Emit(RunCreated, EngineCreatedPayload(request.manifest.releaseId, request.mode), None)]
                       + Run(env, Cursor(Fresh(request), false))
  {
  }

  /** Once every pending call is answered, the model has the next turn and sees the whole conversation. */
  lemma TurnPasses(env: Env, s: ExecutionState, recovering: bool)
    requires s.phase == ToolsPhase && 0 <= s.nextTool == |s.pending|
    ensures Run(env, Cursor(s, recovering)) ==
            Run(env, Cursor(ExecutionState(s.version, s.runId, s.manifestChecksum, ModelPhase, s.turn + 1, s.messages,
                                           [], 0, s.toolCallsUsed, s.usage), false))
  {
  }

  // Answering

  /** A recovered call that is not known to be read-only ends the run; any other is requested, with its state, and then entered. */
  lemma CallOrGuard(env: Env, s: ExecutionState, recovering: bool)
    requires 0 <= s.nextTool < |s.pending|
    ensures var call, step := s.pending[s.nextTool], ToolStep(env, s, recovering);
            if recovering && !(call.name in env.tools && env.tools[call.name]) then
              step == Step([Ending(env, AtGuard(s.turn, s.nextTool), RunInconclusive,
                                   FinalResult(Inconclusive, "", "cannot automatically replay a non-read-only tool after recovery: " + call.name))],
                           None)
            else if Watched(env, AtRequested(s.turn, s.nextTool)) then step == Step([Dropped(ToolRequested)], None)
            else
              && |step.actions| > 2
              && step.actions[0] == Emit(ToolRequested, RequestedPayload(call), Some(s))
              && step.actions[1].Invoke? && step.actions[1].state == s
  {
    assert ERR_UNSAFE_TOOL_RECOVERY + ": " == "cannot automatically replay a non-read-only tool after recovery: ";
  }

  /** What a call comes to: its handler's answer, or that no tool has its name. */
  function AnswerTo(env: Env, s: ExecutionState): ToolOutcome
    requires 0 <= s.nextTool < |s.pending|
  {
    var call := s.pending[s.nextTool];
    if call.name !in env.tools then ToolError("tool not found: " + call.name) else env.handler(s.turn, s.nextTool, call)
  }

  /** The state with the reply in the conversation and the next call to come. */
  function Replied(s: ExecutionState, content: string): ExecutionState
    requires 0 <= s.nextTool < |s.pending|
  {
    var call := s.pending[s.nextTool];
    s.(messages := s.messages + [Message(Tool, content, call.id, call.name, [])], nextTool := s.nextTool + 1)
  }

  /** What follows the handler entered at position i: its content with the grown conversation, or the end of the call. */
  ghost predicate Answered(env: Env, trace: seq<Action>, i: nat)
    requires i < |trace| && trace[i].Invoke?
  {
    var s := trace[i].state;
    && 0 <= s.nextTool < |s.pending|
    && var call := s.pending[s.nextTool];
    && (trace[i].readOnly <==> call.name in env.tools && env.tools[call.name])
    && match AnswerTo(env, s)
       case Content(content) =>
         && i + 1 < |trace|
         && trace[i + 1] ==
            (if Watched(env, AtCompleted(s.turn, s.nextTool)) then Dropped(ToolCompleted)
             else Emit(ToolCompleted, CompletedPayload(call.id, call.name, content), Some(Replied(s, content))))
       case ToolError(message) =>
         var view := env.context(AtReturn(s.turn, s.nextTool));
         if view.Done? then |trace| == i + 2 && trace[i + 1] == Ended(view.deadline)
         else
           && |trace| == i + 3
           && trace[i + 1] ==
              (if Watched(env, AtFailed(s.turn, s.nextTool)) then Dropped(ToolFailed)
               else Emit(ToolFailed, FailedPayload(call.id, call.name, message), None))
           && trace[i + 2] == Ending(env, AtGivenUp(s.turn, s.nextTool), RunFailed,
                                     FinalResult(Failed, "", "execute tool " + call.name + ": " + message))
  }

  ghost predicate AllAnswered(env: Env, trace: seq<Action>) {
    forall i :: 0 <= i < |trace| && trace[i].Invoke? ==> Answered(env, trace, i)
  }

  lemma ToolStepAnswered(env: Env, s: ExecutionState, recovering: bool)
    requires 0 <= s.nextTool < |s.pending|
    ensures var step := ToolStep(env, s, recovering);
            && AllAnswered(env, step.actions)
            && (step.next.Some? ==>
                  AnswerTo(env, s).Content? && step.next == Some(Cursor(Replied(s, AnswerTo(env, s).content), recovering))
                  && |step.actions| == 3 && step.actions[1].Invoke?)
  {
    assert ERR_TOOL_NOT_FOUND + ": " == "tool not found: ";
    assert AnswerTo(env, s) == ExecuteTool(env, s.turn, s.nextTool, s.pending[s.nextTool]);
  }

  /** No handler entered in these actions failed. */
  ghost predicate NoneFailed(env: Env, actions: seq<Action>) {
    forall i :: 0 <= i < |actions| && actions[i].Invoke? ==>
      var s := actions[i].state;
      0 <= s.nextTool < |s.pending| && AnswerTo(env, s).Content?
  }

  lemma AnsweredJoin(env: Env, a: seq<Action>, b: seq<Action>)
    requires AllAnswered(env, a) && NoneFailed(env, a) && AllAnswered(env, b)
    ensures AllAnswered(env, a + b)
  {
    forall i | 0 <= i < |a + b| && (a + b)[i].Invoke?
      ensures Answered(env, a + b, i)
    {
      if i < |a| {
        assert Answered(env, a, i);
      } else {
        assert Answered(env, b, i - |a|);
      }
    }
  }

  lemma LoopStepAnswered(env: Env, c: Cursor)
    requires Runnable(c.state)
    ensures var step := LoopStep(env, c);
            && AllAnswered(env, step.actions)
            && (step.next.Some? ==> NoneFailed(env, step.actions))
  {
    if c.state.phase.ModelPhase? {
      ModelStepInvokesNothing(env, c.state);
    } else if c.state.nextTool < |c.state.pending| {
      ToolStepAnswered(env, c.state, c.recovering);
    }
  }

  lemma {:induction false} RunAnswered(env: Env, c: Cursor)
    requires Runnable(c.state)
    ensures AllAnswered(env, Run(env, c))
    decreases Rank(env.limits, c.state), CallsLeft(c.state)
  {
    var step := LoopStep(env, c);
    LoopStepDescends(env, c);
    LoopStepAnswered(env, c);
    if step.next.Some? {
      RunAnswered(env, step.next.value);
      AnsweredJoin(env, step.actions, Run(env, step.next.value));
    }
  }

  /** Along a call every handler's answer reaches the conversation under its call, and every failure ends the call. */
  lemma ExecuteAnswered(env: Env, request: RunRequest, checkpoint: Option<ExecutionState>)
    ensures AllAnswered(env, Execute(env, request, checkpoint))
  {
    var trace := Execute(env, request, checkpoint);
    if Accepted(env, request, checkpoint) && env.context(AtStart).Open? {
      var s := StartState(request, checkpoint);
      var c := Cursor(s, checkpoint.Some? && s.phase.ToolsPhase?);
      RunAnswered(env, c);
      if trace != Run(env, c) {
        AnsweredJoin(env, trace[..1], trace[1..]);
        assert trace[..1] + trace[1..] == trace;
      }
    }
  }

  // Counting usage

  /** What the first n actions report as spent. */
  function SpentIn(trace: seq<Action>, n: nat): Usage
    requires n <= |trace|
  {
    if n == 0 then Usage(0, 0, 0)
    else
      var before := SpentIn(trace, n - 1);
      var a := trace[n - 1];
      if a.Emit? && a.payload.UsagePayload? then
        Usage(before.inputTokens + a.payload.spent.inputTokens, before.outputTokens + a.payload.spent.outputTokens,
              before.costMicros + a.payload.spent.costMicros)
      else before
  }

  lemma {:induction false} SpentInPart(a: seq<Action>, b: seq<Action>, n: nat)
    requires n <= |b|
    ensures SpentIn(a + b, |a| + n) ==
            Usage(SpentIn(a, |a|).inputTokens + SpentIn(b, n).inputTokens,
                  SpentIn(a, |a|).outputTokens + SpentIn(b, n).outputTokens,
                  SpentIn(a, |a|).costMicros + SpentIn(b, n).costMicros)
    decreases n
  {
    if n == 0 {
      SpentInPrefix(a, b, |a|);
    } else {
      SpentInPart(a, b, n - 1);
      assert (a + b)[|a| + n - 1] == b[n - 1];
    }
  }

  lemma {:induction false} SpentInPrefix(a: seq<Action>, b: seq<Action>, n: nat)
    requires n <= |a|
    ensures SpentIn(a + b, n) == SpentIn(a, n)
  {
    if n > 0 {
      SpentInPrefix(a, b, n - 1);
    }
  }

  lemma {:induction false} NothingSpent(trace: seq<Action>, n: nat)
    requires n <= |trace|
    requires forall i :: 0 <= i < n && trace[i].Emit? ==> !trace[i].payload.UsagePayload?
    ensures SpentIn(trace, n) == Usage(0, 0, 0)
  {
    if n > 0 {
      NothingSpent(trace, n - 1);
    }
  }

  /** The usage that started with `before` and what the first n actions report. */
  ghost predicate Counts(before: Usage, trace: seq<Action>, n: nat, usage: Usage)
    requires n <= |trace|
  {
    && usage.inputTokens == before.inputTokens + SpentIn(trace, n).inputTokens
    && usage.outputTokens == before.outputTokens + SpentIn(trace, n).outputTokens
    && usage.costMicros == before.costMicros + SpentIn(trace, n).costMicros
  }

  ghost predicate AllCounted(before: Usage, trace: seq<Action>) {
    forall i :: 0 <= i < |trace| && StateIn(trace[i]).Some? ==> Counts(before, trace, i + 1, StateIn(trace[i]).value.usage)
  }

  lemma CountedJoin(before: Usage, a: seq<Action>, mid: Usage, b: seq<Action>)
    requires AllCounted(before, a) && Counts(before, a, |a|, mid) && AllCounted(mid, b)
    ensures AllCounted(before, a + b)
    ensures forall usage :: Counts(mid, b, |b|, usage) ==> Counts(before, a + b, |a + b|, usage)
  {
    forall i | 0 <= i < |a + b| && StateIn((a + b)[i]).Some?
      ensures Counts(before, a + b, i + 1, StateIn((a + b)[i]).value.usage)
    {
      if i < |a| {
        SpentInPrefix(a, b, i + 1);
      } else {
        SpentInPart(a, b, i - |a| + 1);
        assert Counts(mid, b, i - |a| + 1, StateIn(b[i - |a|]).value.usage);
      }
    }
    SpentInPart(a, b, |b|);
  }

  lemma AfterTurnCounted(env: Env, s: ExecutionState, result: TurnResult)
    ensures var step := AfterTurn(env, s, result);
            && AllCounted(s.usage, step.actions)
            && (step.next.Some? ==> Counts(s.usage, step.actions, |step.actions|, step.next.value.state.usage))
  {
    var recorded, verdict := UsageActions(env, s, result), Decide(env, Record(s, result), result);
    assert recorded != [] ==> SpentIn(recorded, 1) == (if recorded[0].Emit? then result.usage else SpentIn(recorded, 0));
    if recorded == [] || recorded[0].Emit? {
      assert verdict.next.Some? ==> verdict.actions == [];
      NothingSpent(verdict.actions, |verdict.actions|);
      CountedJoin(s.usage, recorded, Record(s, result).usage, verdict.actions);
    }
  }

  lemma ModelStepCounted(env: Env, s: ExecutionState)
    ensures var step := ModelStep(env, s);
            && AllCounted(s.usage, step.actions)
            && (step.next.Some? ==> Counts(s.usage, step.actions, |step.actions|, step.next.value.state.usage))
  {
    var step := ModelStep(env, s);
    var started := EmitAt(env, AtModelStarted(s.turn), ModelStarted, StartedPayload(env.adapter, s.turn), Some(s));
    if s.turn > env.limits.maxTurns || started.Dropped? {
      NothingSpent(step.actions, |step.actions|);
    } else {
      var turn := RunModelTurn(env, s.turn, s.messages);
      ReceiveYieldsDeltas(env, s.turn, env.model(s.turn, s.messages), 0, EMPTY_TURN);
      var opening := [started] + turn.actions;
      forall n | 0 <= n <= |opening|
        ensures SpentIn(opening, n) == Usage(0, 0, 0)
      {
        NothingSpent(opening, n);
      }
      var conclusion := ConcludeTurn(env, s, turn.outcome);
      if turn.outcome.Ok? {
        AfterTurnCounted(env, s, turn.outcome.value);
      }
      CountedJoin(s.usage, opening, s.usage, conclusion.actions);
    }
  }

  lemma LoopStepCounted(env: Env, c: Cursor)
    requires Runnable(c.state)
    ensures var step := LoopStep(env, c);
            && AllCounted(c.state.usage, step.actions)
            && (step.next.Some? ==> Counts(c.state.usage, step.actions, |step.actions|, step.next.value.state.usage))
  {
    if c.state.phase.ModelPhase? {
      ModelStepCounted(env, c.state);
    } else {
      var step := LoopStep(env, c);
      forall n | 0 <= n <= |step.actions|
        ensures SpentIn(step.actions, n) == Usage(0, 0, 0)
      {
        NothingSpent(step.actions, n);
      }
    }
  }

  lemma {:induction false} RunCounted(env: Env, c: Cursor)
    requires Runnable(c.state)
    ensures AllCounted(c.state.usage, Run(env, c))
    decreases Rank(env.limits, c.state), CallsLeft(c.state)
  {
    var step := LoopStep(env, c);
    LoopStepDescends(env, c);
    LoopStepCounted(env, c);
    if step.next.Some? {
      RunCounted(env, step.next.value);
      CountedJoin(c.state.usage, step.actions, step.next.value.state.usage, Run(env, step.next.value));
    }
  }

  /** Usage is conserved: every state of a call has what the call started with and every report made since, no more and no less. */
  lemma UsageCounted(env: Env, request: RunRequest, checkpoint: Option<ExecutionState>)
    ensures AllCounted(if checkpoint.Some? then checkpoint.value.usage else Usage(0, 0, 0), Execute(env, request, checkpoint))
  {
    if Accepted(env, request, checkpoint) && env.context(AtStart).Open? {
      var s := StartState(request, checkpoint);
      var c := Cursor(s, checkpoint.Some? && s.phase.ToolsPhase?);
      var trace := Execute(env, request, checkpoint);
      RunCounted(env, c);
      if trace != Run(env, c) {
        NothingSpent(trace[..1], 1);
        CountedJoin(s.usage, trace[..1], s.usage, trace[1..]);
        assert trace[..1] + trace[1..] == trace;
      }
    }
  }
}
