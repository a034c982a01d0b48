/**
  The Agent Loop as it runs: an emitter that numbers outputs as it hands them over, and loops
  that update the state variable by variable. Each method is proved against `Engine`.
 */
module EngineLoop {
  import opened Domain
  import opened EngineState
  import opened Engine

  lemma TraceGrows(trace: seq<Action>, action: Action)
    ensures Numbers(trace + [action]) == Numbers(trace) + (if action.Invoke? then 0 else 1)
    ensures Outputs(trace + [action]) ==
            if action.Emit? then Outputs(trace) + [Output(Numbers(trace) + 1, action.event, action.payload, action.checkpoint)]
            else Outputs(trace)
  {
    assert (trace + [action])[..|trace|] == trace;
  }

  /** The output channel together with the closures that write to it. */
  class Emitter {
    var sequence: nat
    var outputs: seq<Output>
    ghost var trace: seq<Action>

    ghost predicate Valid()
      reads this
    {
      && sequence == Numbers(trace)
      && outputs == Outputs(trace)
    }

    constructor ()
      ensures Valid() && trace == []
    {
      sequence, outputs, trace := 0, [], [];
    }

    method Emit(env: Env, p: Point, event: EventType, payload: Payload, checkpoint: Option<ExecutionState>)
      returns (sent: bool)
      requires Valid()
      modifies this
      ensures Valid()
      ensures trace == old(trace) + [EmitAt(env, p, event, payload, checkpoint)]
      ensures sent == EmitAt(env, p, event, payload, checkpoint).Emit?
    {
      TraceGrows(trace, EmitAt(env, p, event, payload, checkpoint));
      sequence := sequence + 1;
      sent := !Gone(env.context(p));
      if sent {
        outputs := outputs + [Output(sequence, event, payload, checkpoint)];
      }
      Append(EmitAt(env, p, event, payload, checkpoint));
    }

    method EmitTerminal(deadline: bool)
      requires Valid()
      modifies this
      ensures Valid()
      ensures trace == old(trace) + [Terminate(deadline)]
    {
      var terminal := Terminate(deadline);
      TraceGrows(trace, terminal);
      sequence := sequence + 1;
      outputs := outputs + [Output(sequence, terminal.event, terminal.payload, None)];
      Append(terminal);
    }

    /** Runs a tool through the registry. */
    method Execute(env: Env, s: ExecutionState) returns (outcome: ToolOutcome)
      requires Valid() && 0 <= s.nextTool < |s.pending|
      modifies this
      ensures Valid()
      ensures trace == old(trace) + [Invoke(s, ReadOnly(env, s.pending[s.nextTool]))]
      ensures outcome == ExecuteTool(env, s.turn, s.nextTool, s.pending[s.nextTool])
    {
      outcome := ExecuteTool(env, s.turn, s.nextTool, s.pending[s.nextTool]);
      TraceGrows(trace, Invoke(s, ReadOnly(env, s.pending[s.nextTool])));
      Append(Invoke(s, ReadOnly(env, s.pending[s.nextTool])));
    }

    ghost method Append(action: Action)
      modifies this`trace
      ensures trace == old(trace) + [action]
    {
      trace := trace + [action];
    }
  }

  method RunModelTurn(env: Env, turn: int, messages: seq<Message>, emitter: Emitter)
    returns (outcome: Result<TurnResult, ModelFailure>)
    requires emitter.Valid()
    modifies emitter
    ensures emitter.Valid()
    ensures emitter.trace == old(emitter.trace) + Engine.RunModelTurn(env, turn, messages).actions
    ensures outcome == Engine.RunModelTurn(env, turn, messages).outcome
  {
    var stream := env.model(turn, messages);
    var result := EMPTY_TURN;
    var k := 0;
    ghost var all := Receive(env, turn, stream, 0, EMPTY_TURN);
    while true
      invariant k <= |stream.received|
      invariant emitter.Valid()
      invariant var rest := Receive(env, turn, stream, k, result);
                && old(emitter.trace) + all.actions == emitter.trace + rest.actions
                && all.outcome == rest.outcome
      decreases |stream.received| - k
    {
      var view := env.context(InStream(turn, k));
      if Gone(view) {
        return Err(ContextFailure(view.deadline));
      }
      if k == |stream.received| {
        match stream.failure {
          case None => return Ok(result);
          case Some(failure) => return Err(failure);
        }
      }
      var event := stream.received[k];
      match event {
        case TextDelta(delta) =>
          result := result.(text := result.text + delta);
          var sent := emitter.Emit(env, AtDelta(turn, k), ModelDelta, DeltaPayload(turn, delta), None);
          if !sent {
            return Err(ContextFailure(env.context(AtDelta(turn, k)).deadline));
          }
        case CallReady(call) =>
          result := result.(calls := result.calls + [call]);
        case UsageReport(usage) =>
          result := result.(usage := Plus(result.usage, usage));
        case Completed(output) =>
          result := result.(final := Some(output));
      }
      k := k + 1;
    }
  }

  /** One step of the loop moves its actions from the rest of the trace to the trace so far. */
  lemma RunUnfolds(env: Env, c: Cursor, before: seq<Action>)
    requires Runnable(c.state)
    ensures var step := LoopStep(env, c);
            before + Run(env, c) ==
            (before + step.actions) + if step.next.Some? then Run(env, step.next.value) else []
  {
    var step := LoopStep(env, c);
    var rest := if step.next.Some? then Run(env, step.next.value) else [];
    assert Run(env, c) == step.actions + rest;
    Reassociate(before, step.actions, rest);
  }

  lemma Reassociate<T>(a: seq<T>, b: seq<T>, c: seq<T>)
    ensures a + (b + c) == (a + b) + c
  {
  }

  lemma ModelTurnUnfolds(env: Env, s: ExecutionState, recovering: bool, before: seq<Action>)
    requires Runnable(s) && s.phase.ModelPhase?
    ensures var step := ModelStep(env, s);
            && (step.next.Some? ==> Runnable(step.next.value.state) && Rank(env.limits, step.next.value.state) < Rank(env.limits, s))
            && before + Run(env, Cursor(s, recovering)) ==
               (before + step.actions) + if step.next.Some? then Run(env, step.next.value) else []
  {
    LoopStepDescends(env, Cursor(s, recovering));
    RunUnfolds(env, Cursor(s, recovering), before);
  }

  lemma ToolsDoneUnfolds(env: Env, s: ExecutionState, recovering: bool)
    requires Runnable(s) && s.phase.ToolsPhase? && s.nextTool == |s.pending|
    ensures Rank(env.limits, NextTurn(s)) < Rank(env.limits, s)
    ensures Run(env, Cursor(s, recovering)) == Run(env, Cursor(NextTurn(s), false))
  {
  }

  /** Takes a tool's outcome into the state; `finished` says that the loop may go on. */
  method ConcludeCall(env: Env, start: ExecutionState, ghost recovering: bool, outcome: ToolOutcome, emitter: Emitter)
    returns (s: ExecutionState, finished: bool)
    requires emitter.Valid()
    requires 0 <= start.nextTool < |start.pending|
    modifies emitter
    ensures emitter.Valid()
    ensures emitter.trace == old(emitter.trace) + Engine.ConcludeCall(env, start, recovering, outcome).actions
    ensures Engine.ConcludeCall(env, start, recovering, outcome).next == if finished then Some(Cursor(s, recovering)) else None
    ensures s.phase == start.phase && s.turn == start.turn && s.pending == start.pending
    ensures start.nextTool <= s.nextTool <= |s.pending|
  {
    s := start;
    var call := s.pending[s.nextTool];
    var turn, index := s.turn, s.nextTool;
    if outcome.ToolError? {
      var view := env.context(AtReturn(turn, index));
      if view.Done? {
        emitter.EmitTerminal(view.deadline);
        return s, false;
      }
      var _ := emitter.Emit(env, AtFailed(turn, index), ToolFailed,
                            FailedPayload(call.id, call.name, outcome.message), None);
      var _ := emitter.Emit(env, AtGivenUp(turn, index), RunFailed,
                            ResultPayload(FinalResult(Failed, "", "execute tool " + call.name + ": " + outcome.message)), None);
      return s, false;
    }
    s := s.(messages := s.messages + [ToolMessage(call, outcome.content)]);
    s := s.(nextTool := s.nextTool + 1);
    finished := emitter.Emit(env, AtCompleted(turn, index), ToolCompleted,
                             CompletedPayload(call.id, call.name, outcome.content), Some(s));
  }

  /** Requests and runs the next pending call; `finished` says that the loop may go on. */
  method ExecuteNextTool(env: Env, start: ExecutionState, recovering: bool, emitter: Emitter)
    returns (s: ExecutionState, finished: bool)
    requires emitter.Valid()
    requires 0 <= start.nextTool < |start.pending|
    modifies emitter
    ensures emitter.Valid()
    ensures emitter.trace == old(emitter.trace) + ToolStep(env, start, recovering).actions
    ensures ToolStep(env, start, recovering).next == if finished then Some(Cursor(s, recovering)) else None
    ensures s.phase == start.phase && s.turn == start.turn && s.pending == start.pending
    ensures start.nextTool <= s.nextTool <= |s.pending|
  {
    s := start;
    var call := s.pending[s.nextTool];
    var turn, index := s.turn, s.nextTool;
    if recovering && !ReadOnly(env, call) {
      var _ := emitter.Emit(env, AtGuard(turn, index), RunInconclusive,
                            ResultPayload(FinalResult(Inconclusive, "", ERR_UNSAFE_TOOL_RECOVERY + ": " + call.name)), None);
      return s, false;
    }
    var sent := emitter.Emit(env, AtRequested(turn, index), ToolRequested, RequestedPayload(call), Some(s));
    if !sent {
      return s, false;
    }
    var outcome := emitter.Execute(env, s);
    s, finished := ConcludeCall(env, s, recovering, outcome, emitter);
  }

  /** Executes the pending calls in order; `finished` says that none is left. */
  method ExecutePendingTools(env: Env, start: ExecutionState, recovering: bool, emitter: Emitter)
    returns (s: ExecutionState, finished: bool)
    requires emitter.Valid()
    requires Runnable(start) && start.phase.ToolsPhase?
    modifies emitter
    ensures emitter.Valid()
    ensures Runnable(s) && s.phase.ToolsPhase? && s.turn == start.turn
    ensures finished ==> s.nextTool == |s.pending|
    ensures old(emitter.trace) + Run(env, Cursor(start, recovering)) ==
            emitter.trace + if finished then Run(env, Cursor(s, recovering)) else []
  {
    s := start;
    while s.nextTool < |s.pending|
      invariant emitter.Valid()
      invariant Runnable(s) && s.phase.ToolsPhase? && s.turn == start.turn
      invariant old(emitter.trace) + Run(env, Cursor(start, recovering)) ==
                emitter.trace + Run(env, Cursor(s, recovering))
      decreases |s.pending| - s.nextTool
    {
      RunUnfolds(env, Cursor(s, recovering), emitter.trace);
      s, finished := ExecuteNextTool(env, s, recovering, emitter);
      if !finished {
        return;
      }
    }
    finished := true;
  }

  /** Counts a turn's usage in and reports it unless nothing was spent. */
  method RecordUsage(env: Env, start: ExecutionState, result: TurnResult, emitter: Emitter)
    returns (s: ExecutionState, sent: bool)
    requires emitter.Valid()
    modifies emitter
    ensures emitter.Valid()
    ensures s == Record(start, result)
    ensures emitter.trace == old(emitter.trace) + UsageActions(env, start, result)
    ensures sent <==> UsageActions(env, start, result) == [] || UsageActions(env, start, result)[0].Emit?
  {
    s := start.(usage := Plus(start.usage, result.usage));
    sent := true;
    if result.usage != NO_USAGE {
      sent := emitter.Emit(env, AtUsage(s.turn), UsageRecorded, UsagePayload(s.turn, result.usage, s.usage), Some(s));
    }
  }

  /** The verdict on a recorded turn; `more` says that the loop goes on. */
  method Judge(env: Env, start: ExecutionState, result: TurnResult, emitter: Emitter)
    returns (s: ExecutionState, more: bool)
    requires emitter.Valid()
    modifies emitter
    ensures emitter.Valid()
    ensures emitter.trace == old(emitter.trace) + Decide(env, start, result).actions
    ensures Decide(env, start, result).next == if more then Some(Cursor(s, false)) else None
    ensures more ==> WithinLimits(env.limits, start.usage)
    ensures !WithinLimits(env.limits, start.usage) ==>
              exists error :: emitter.trace == old(emitter.trace) + [GiveUp(env, AtVerdict(start.turn), error)]
  {
    s := start;
    var p := AtVerdict(s.turn);
    var exceeded := ExceededBudget(env.limits, s.usage);
    if exceeded.Some? {
      var _ := emitter.Emit(env, p, RunInconclusive, ResultPayload(FinalResult(Inconclusive, "", exceeded.value)), None);
      return s, false;
    }
    if result.final.Some? {
      var _ := emitter.Emit(env, p, RunSucceeded, ResultPayload(FinalResult(Succeeded, result.final.value, "")), None);
      return s, false;
    }
    if |result.calls| == 0 {
      var _ := emitter.Emit(env, p, RunFailed, ResultPayload(FinalResult(Failed, "", ERR_EMPTY_MODEL_TURN)), None);
      return s, false;
    }
    if s.toolCallsUsed + |result.calls| > env.limits.maxToolCalls {
      var _ := emitter.Emit(env, p, RunFailed, ResultPayload(FinalResult(Failed, "", ERR_MAX_TOOL_CALLS)), None);
      return s, false;
    }
    s := s.(toolCallsUsed := s.toolCallsUsed + |result.calls|);
    s := s.(messages := s.messages + [AssistantMessage(result.text, result.calls)]);
    s := s.(phase := ToolsPhase, pending := result.calls, nextTool := 0);
    return s, true;
  }

  /** What follows a completed model turn. */
  method SettleTurn(env: Env, start: ExecutionState, result: TurnResult, emitter: Emitter)
    returns (s: ExecutionState, more: bool)
    requires emitter.Valid()
    modifies emitter
    ensures emitter.Valid()
    ensures emitter.trace == old(emitter.trace) + AfterTurn(env, start, result).actions
    ensures AfterTurn(env, start, result).next == if more then Some(Cursor(s, false)) else None
  {
    s, more := RecordUsage(env, start, result, emitter);
    if more {
      s, more := Judge(env, s, result, emitter);
    }
  }

  method Conclude(env: Env, start: ExecutionState, outcome: Result<TurnResult, ModelFailure>, emitter: Emitter)
    returns (s: ExecutionState, more: bool)
    requires emitter.Valid()
    modifies emitter
    ensures emitter.Valid()
    ensures emitter.trace == old(emitter.trace) + ConcludeTurn(env, start, outcome).actions
    ensures ConcludeTurn(env, start, outcome).next == if more then Some(Cursor(s, false)) else None
  {
    match outcome {
      case Err(ContextFailure(deadline)) =>
        emitter.EmitTerminal(deadline);
        return start, false;
      case Err(OtherFailure(message)) =>
        var _ := emitter.Emit(env, AtVerdict(start.turn), RunFailed, ResultPayload(FinalResult(Failed, "", message)), None);
        return start, false;
      case Ok(result) =>
        s, more := SettleTurn(env, start, result, emitter);
    }
  }

  /** One model turn with its bracketing emissions; `more` says that the loop goes on. */
  method ExecuteModelTurn(env: Env, start: ExecutionState, emitter: Emitter)
    returns (s: ExecutionState, more: bool)
    requires emitter.Valid()
    modifies emitter
    ensures emitter.Valid()
    ensures emitter.trace == old(emitter.trace) + ModelStep(env, start).actions
    ensures ModelStep(env, start).next == if more then Some(Cursor(s, false)) else None
  {
    s := start;
    if s.turn > env.limits.maxTurns {
      var _ := emitter.Emit(env, AtVerdict(s.turn), RunFailed, ResultPayload(FinalResult(Failed, "", ERR_MAX_TURNS)), None);
      return s, false;
    }
    var sent := emitter.Emit(env, AtModelStarted(s.turn), ModelStarted, StartedPayload(env.adapter, s.turn), Some(s));
    if !sent {
      return s, false;
    }
    ghost var started := EmitAt(env, AtModelStarted(s.turn), ModelStarted, StartedPayload(env.adapter, s.turn), Some(s));
    var outcome := RunModelTurn(env, s.turn, s.messages, emitter);
    ghost var turn := Engine.RunModelTurn(env, s.turn, s.messages).actions;
    assert emitter.trace == old(emitter.trace) + ([started] + turn);
    s, more := Conclude(env, s, outcome, emitter);
    Reassociate(old(emitter.trace), [started] + turn, ConcludeTurn(env, start, outcome).actions);
  }

  /** The tool phase of an iteration, ending at the next turn's model phase. */
  method FinishTools(env: Env, start: ExecutionState, recovering: bool, emitter: Emitter)
    returns (s: ExecutionState, more: bool)
    requires emitter.Valid() && Runnable(start) && start.phase.ToolsPhase?
    modifies emitter
    ensures emitter.Valid()
    ensures more ==> Runnable(s) && Rank(env.limits, s) < Rank(env.limits, start)
    ensures old(emitter.trace) + Run(env, Cursor(start, recovering)) ==
            emitter.trace + if more then Run(env, Cursor(s, false)) else []
  {
    s, more := ExecutePendingTools(env, start, recovering, emitter);
    if more {
      ToolsDoneUnfolds(env, s, recovering);
      s := s.(phase := ModelPhase, pending := [], nextTool := 0);
      s := s.(turn := s.turn + 1);
    }
  }

  /** The loop proper: tool phases and model turns alternate until one of them stops. */
  method Loop(env: Env, start: ExecutionState, recoveringTools: bool, emitter: Emitter)
    requires emitter.Valid() && Runnable(start)
    modifies emitter
    ensures emitter.Valid()
    ensures emitter.trace == old(emitter.trace) + Run(env, Cursor(start, recoveringTools))
  {
    var s, recovering := start, recoveringTools;
    ghost var whole := emitter.trace + Run(env, Cursor(s, recovering));
    while true
      invariant emitter.Valid() && Runnable(s)
      invariant whole == emitter.trace + Run(env, Cursor(s, recovering))
      decreases Rank(env.limits, s)
    {
      var more;
      if s.phase.ToolsPhase? {
        s, more := FinishTools(env, s, recovering, emitter);
      } else {
        ModelTurnUnfolds(env, s, recovering, emitter.trace);
        s, more := ExecuteModelTurn(env, s, emitter);
      }
      if !more {
        return;
      }
      recovering := false;
    }
  }

  /** One call of the engine: the emitter ends with exactly the specified trace. */
  method Execute(env: Env, request: RunRequest, checkpoint: Option<ExecutionState>) returns (emitter: Emitter)
    ensures fresh(emitter) && emitter.Valid()
    ensures emitter.trace == Engine.Execute(env, request, checkpoint)
    ensures emitter.outputs == Outputs(Engine.Execute(env, request, checkpoint))
  {
    emitter := new Emitter();
    var s := InitialState(request);
    var resumed := checkpoint.Some?;
    if resumed {
      s := checkpoint.value;
    }
    if !ValidRequest(request) || !ValidLimits(env.limits) {
      var _ := emitter.Emit(env, AtReject, RunFailed, ResultPayload(FinalResult(Failed, "", ERR_INVALID_REQUEST)), None);
      return;
    }
    if !ValidState(s, request) {
      var _ := emitter.Emit(env, AtReject, RunFailed, ResultPayload(FinalResult(Failed, "", ERR_INVALID_STATE)), None);
      return;
    }
    var atStart := env.context(AtStart);
    if atStart.Done? {
      emitter.EmitTerminal(atStart.deadline);
      return;
    }
    if !resumed {
      var sent := emitter.Emit(env, AtCreated, RunCreated,
                               EngineCreatedPayload(request.manifest.releaseId, request.mode), None);
      if !sent {
        return;
      }
    }
    Loop(env, s, resumed && s.phase.ToolsPhase?, emitter);
  }
}
