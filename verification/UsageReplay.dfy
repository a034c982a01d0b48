/**
  Resuming from the checkpoint of a USAGE_RECORDED event replays the model turn that made it,
  so that turn's usage is counted twice; nothing else differs while budget verdicts agree.
 */
module UsageReplay {
  import opened Domain
  import opened EngineState
  import opened Engine
  import opened EngineInvariants
  import opened Transcript
  import opened Recovery

  function ShiftState(s: ExecutionState, extra: Usage): ExecutionState {
    s.(usage := Plus(s.usage, extra))
  }

  function ShiftCursor(c: Cursor, extra: Usage): Cursor {
    c.(state := ShiftState(c.state, extra))
  }

  /** The same action with `extra` more in every running usage total. */
  function ShiftAction(a: Action, extra: Usage): Action {
    match a
    case Emit(event, payload, checkpoint) =>
      Emit(event,
           if payload.UsagePayload? then payload.(total := Plus(payload.total, extra)) else payload,
           if checkpoint.Some? then Some(ShiftState(checkpoint.value, extra)) else None)
    case Dropped(event) => a
    case Invoke(state, readOnly) => Invoke(ShiftState(state, extra), readOnly)
  }

  function Shift(trace: seq<Action>, extra: Usage): seq<Action> {
    seq(|trace|, i requires 0 <= i < |trace| => ShiftAction(trace[i], extra))
  }

  function ShiftStep(step: Step, extra: Usage): Step {
    Step(Shift(step.actions, extra), if step.next.Some? then Some(ShiftCursor(step.next.value, extra)) else None)
  }

  lemma ShiftAdd(a: seq<Action>, b: seq<Action>, extra: Usage)
    ensures Shift(a + b, extra) == Shift(a, extra) + Shift(b, extra)
  {
  }

  /** The budget verdict of a model turn is the same with `extra` more usage. */
  predicate SameVerdict(env: Env, s: ExecutionState, extra: Usage) {
    s.phase.ModelPhase? && s.turn <= env.limits.maxTurns ==>
      var outcome := RunModelTurn(env, s.turn, s.messages).outcome;
      outcome.Ok? ==>
        var total := Plus(s.usage, outcome.value.usage);
        ExceededBudget(env.limits, total) == ExceededBudget(env.limits, Plus(total, extra))
  }

  /** Every budget verdict along a run is. */
  ghost predicate SameVerdicts(env: Env, c: Cursor, extra: Usage)
    requires Runnable(c.state)
    decreases Rank(env.limits, c.state), CallsLeft(c.state)
  {
    LoopStepDescends(env, c);
    var next := LoopStep(env, c).next;
    SameVerdict(env, c.state, extra) && (next.Some? ==> SameVerdicts(env, next.value, extra))
  }

  lemma {:induction false} UnlimitedSameVerdicts(env: Env, c: Cursor, extra: Usage)
    requires Runnable(c.state)
    requires env.limits.maxInputTokens == env.limits.maxOutputTokens == env.limits.maxCostMicros == 0
    ensures SameVerdicts(env, c, extra)
    decreases Rank(env.limits, c.state), CallsLeft(c.state)
  {
    LoopStepDescends(env, c);
    var next := LoopStep(env, c).next;
    if next.Some? {
      UnlimitedSameVerdicts(env, next.value, extra);
    }
  }

  lemma ShiftDeltas(trace: seq<Action>, extra: Usage)
    requires forall a :: a in trace ==>
               a == Dropped(ModelDelta) || (a.Emit? && a.event == ModelDelta && a.payload.DeltaPayload? && a.checkpoint.None?)
    ensures Shift(trace, extra) == trace
  {
    forall i | 0 <= i < |trace|
      ensures Shift(trace, extra)[i] == trace[i]
    {
      assert trace[i] in trace;
    }
  }

  lemma DecideShifts(env: Env, s: ExecutionState, result: TurnResult, extra: Usage)
    requires ExceededBudget(env.limits, s.usage) == ExceededBudget(env.limits, Plus(s.usage, extra))
    ensures Decide(env, ShiftState(s, extra), result) == ShiftStep(Decide(env, s, result), extra)
  {
  }

  lemma UsageActionsShift(env: Env, s: ExecutionState, result: TurnResult, extra: Usage)
    ensures Record(ShiftState(s, extra), result) == ShiftState(Record(s, result), extra)
    ensures UsageActions(env, ShiftState(s, extra), result) == Shift(UsageActions(env, s, result), extra)
  {
  }

  lemma ConclusionShifts(env: Env, s: ExecutionState, outcome: Result<TurnResult, ModelFailure>, extra: Usage)
    requires outcome.Ok? ==>
               var total := Plus(s.usage, outcome.value.usage);
               ExceededBudget(env.limits, total) == ExceededBudget(env.limits, Plus(total, extra))
    ensures ConcludeTurn(env, ShiftState(s, extra), outcome) == ShiftStep(ConcludeTurn(env, s, outcome), extra)
  {
    if outcome.Ok? {
      var result := outcome.value;
      UsageActionsShift(env, s, result, extra);
      DecideShifts(env, Record(s, result), result, extra);
      ShiftAdd(UsageActions(env, s, result), Decide(env, Record(s, result), result).actions, extra);
    }
  }

  lemma ModelStepShifts(env: Env, s: ExecutionState, extra: Usage)
    requires SameVerdict(env, s, extra) && s.phase.ModelPhase?
    ensures ModelStep(env, ShiftState(s, extra)) == ShiftStep(ModelStep(env, s), extra)
  {
    var started := EmitAt(env, AtModelStarted(s.turn), ModelStarted, StartedPayload(env.adapter, s.turn), Some(s));
    if s.turn <= env.limits.maxTurns && started.Emit? {
      var turn := RunModelTurn(env, s.turn, s.messages);
      ReceiveYieldsDeltas(env, s.turn, env.model(s.turn, s.messages), 0, EMPTY_TURN);
      ShiftDeltas(turn.actions, extra);
      ConclusionShifts(env, s, turn.outcome, extra);
      ShiftAdd([started] + turn.actions, ConcludeTurn(env, s, turn.outcome).actions, extra);
      ShiftAdd([started], turn.actions, extra);
    }
  }

  lemma ToolStepShifts(env: Env, s: ExecutionState, recovering: bool, extra: Usage)
    requires 0 <= s.nextTool < |s.pending|
    ensures ToolStep(env, ShiftState(s, extra), recovering) == ShiftStep(ToolStep(env, s, recovering), extra)
  {
  }

  lemma LoopStepShifts(env: Env, c: Cursor, extra: Usage)
    requires Runnable(c.state) && SameVerdict(env, c.state, extra)
    ensures LoopStep(env, ShiftCursor(c, extra)) == ShiftStep(LoopStep(env, c), extra)
  {
    if c.state.phase.ModelPhase? {
      ModelStepShifts(env, c.state, extra);
    } else if c.state.nextTool < |c.state.pending| {
      ToolStepShifts(env, c.state, c.recovering, extra);
    }
  }

  /** Where a completed model turn's verdict stands in the run, and what it is. */
  lemma VerdictAction(env: Env, c: Cursor)
    requires Uninterrupted(env) && Runnable(c.state)
    requires c.state.phase.ModelPhase? && c.state.turn <= env.limits.maxTurns
    requires RunModelTurn(env, c.state.turn, c.state.messages).outcome.Ok?
    ensures var turn := RunModelTurn(env, c.state.turn, c.state.messages);
            var at := 1 + |turn.actions| + |UsageActions(env, c.state, turn.outcome.value)|;
            var exceeded := ExceededBudget(env.limits, Plus(c.state.usage, turn.outcome.value.usage));
            && at < |Run(env, c)|
            && if exceeded.Some? then Run(env, c)[at] == GiveUp(env, AtVerdict(c.state.turn), exceeded.value)
               else Run(env, c)[at].Emit? && Run(env, c)[at].event != RunInconclusive
  {
    LoopStepDescends(env, c);
    var step := LoopStep(env, c);
    var turn := RunModelTurn(env, c.state.turn, c.state.messages);
    var result := turn.outcome.value;
    var verdict := Decide(env, Record(c.state, result), result);
    var started := [EmitAt(env, AtModelStarted(c.state.turn), ModelStarted, StartedPayload(env.adapter, c.state.turn), Some(c.state))];
    assert step.actions == (started + turn.actions + UsageActions(env, c.state, result)) + verdict.actions;
    if step.next.Some? {
      CallsRequestFirst(env, step.next.value.state);
    }
  }

  lemma CallsRequestFirst(env: Env, s: ExecutionState)
    requires Uninterrupted(env) && Runnable(s) && s.phase.ToolsPhase? && s.nextTool < |s.pending|
    ensures Run(env, Cursor(s, false)) != []
    ensures Run(env, Cursor(s, false))[0].Emit? && Run(env, Cursor(s, false))[0].event == ToolRequested
  {
  }

  lemma VerdictDiffers(env: Env, c: Cursor, extra: Usage)
    requires Uninterrupted(env) && Runnable(c.state) && !SameVerdict(env, c.state, extra)
    ensures Run(env, ShiftCursor(c, extra)) != Shift(Run(env, c), extra)
  {
    VerdictAction(env, c);
    VerdictAction(env, ShiftCursor(c, extra));
    var turn := RunModelTurn(env, c.state.turn, c.state.messages);
    var at := 1 + |turn.actions| + |UsageActions(env, c.state, turn.outcome.value)|;
    UsageActionsShift(env, c.state, turn.outcome.value, extra);
    assert ShiftState(c.state, extra).messages == c.state.messages;
    assert Run(env, ShiftCursor(c, extra))[at] != ShiftAction(Run(env, c)[at], extra);
    assert at < |Run(env, c)| ==> Shift(Run(env, c), extra)[at] == ShiftAction(Run(env, c)[at], extra);
  }

  /** With `extra` usage at the start a run is the same run with `extra` in every total, iff verdicts agree. */
  lemma {:induction false} RunShifts(env: Env, c: Cursor, extra: Usage)
    requires Uninterrupted(env) && Runnable(c.state)
    ensures Run(env, ShiftCursor(c, extra)) == Shift(Run(env, c), extra) <==> SameVerdicts(env, c, extra)
    decreases Rank(env.limits, c.state), CallsLeft(c.state)
  {
    if !SameVerdict(env, c.state, extra) {
      VerdictDiffers(env, c, extra);
    } else {
      LoopStepDescends(env, c);
      LoopStepShifts(env, c, extra);
      var step := LoopStep(env, c);
      if step.next.Some? {
        var next := step.next.value;
        RunShifts(env, next, extra);
        RunStep(env, c);
        RunStep(env, ShiftCursor(c, extra));
        ShiftAdd(step.actions, Run(env, next), extra);
        var a, b, b' := Shift(step.actions, extra), Shift(Run(env, next), extra), Run(env, ShiftCursor(next, extra));
        assert (a + b)[|a|..] == b && (a + b')[|a|..] == b';
      }
    }
  }

  lemma RunStep(env: Env, c: Cursor)
    requires Runnable(c.state) && LoopStep(env, c).next.Some?
    ensures Runnable(LoopStep(env, c).next.value.state)
    ensures Run(env, c) == LoopStep(env, c).actions + Run(env, LoopStep(env, c).next.value)
  {
    LoopStepDescends(env, c);
  }

  /** A usage record lies in the model turn whose start made the checkpoint before it. */
  lemma {:induction false} UsageFollowsStart(env: Env, c: Cursor, i: nat) returns (j: nat)
    requires Runnable(c.state)
    requires i < |Run(env, c)| && Run(env, c)[i].Emit? && Run(env, c)[i].event == UsageRecorded
    ensures var trace := Run(env, c);
            && j < i && Boundary(trace[j]) && trace[j].event == ModelStarted
            && trace[j].checkpoint.value.phase.ModelPhase?
            && trace[i].payload.UsagePayload?
            && trace[i].checkpoint == Some(ShiftState(trace[j].checkpoint.value, trace[i].payload.spent))
            && trace[i].payload.total == trace[i].checkpoint.value.usage
    ensures forall k :: j < k <= i && Run(env, c)[k].Emit? ==> Run(env, c)[k].event != ModelStarted
    decreases Rank(env.limits, c.state), CallsLeft(c.state)
  {
    LoopStepDescends(env, c);
    var step := LoopStep(env, c);
    if i < |step.actions| {
      j := 0;
      assert Run(env, c)[..|step.actions|] == step.actions;
      assert Run(env, c)[i] == step.actions[i] && Run(env, c)[0] == step.actions[0];
      UsageInStep(env, c, i);
    } else {
      RunStep(env, c);
      var j' := UsageFollowsStart(env, step.next.value, i - |step.actions|);
      j := j' + |step.actions|;
      UsageBehind(step.actions, Run(env, step.next.value), j', i);
    }
  }

  lemma UsageBehind(actions: seq<Action>, rest: seq<Action>, j: nat, i: nat)
    requires |actions| <= i < |actions| + |rest| && j <= i - |actions|
    requires forall k :: j < k <= i - |actions| && rest[k].Emit? ==> rest[k].event != ModelStarted
    ensures (actions + rest)[i] == rest[i - |actions|] && (actions + rest)[j + |actions|] == rest[j]
    ensures forall k :: j + |actions| < k <= i && (actions + rest)[k].Emit? ==> (actions + rest)[k].event != ModelStarted
  {
    forall k | j + |actions| < k <= i && (actions + rest)[k].Emit?
      ensures (actions + rest)[k].event != ModelStarted
    {
      assert (actions + rest)[k] == rest[k - |actions|];
    }
  }

  lemma NoUsageInCall(env: Env, s: ExecutionState, recovering: bool)
    requires 0 <= s.nextTool < |s.pending|
    ensures forall a :: a in ToolStep(env, s, recovering).actions && a.Emit? ==> a.event != UsageRecorded
  {
  }

  lemma UsageInStep(env: Env, c: Cursor, i: nat)
    requires Runnable(c.state) && i < |LoopStep(env, c).actions|
    requires LoopStep(env, c).actions[i].Emit? && LoopStep(env, c).actions[i].event == UsageRecorded
    ensures var actions := LoopStep(env, c).actions;
            && 0 < i && actions[0].Emit? && actions[0].event == ModelStarted && actions[0].checkpoint == Some(c.state)
            && c.state.phase.ModelPhase?
            && (forall k :: 1 <= k < |actions| && actions[k].Emit? ==> actions[k].event != ModelStarted)
            && actions[i].payload.UsagePayload?
            && actions[i].checkpoint == Some(ShiftState(c.state, actions[i].payload.spent))
            && actions[i].payload.total == actions[i].checkpoint.value.usage
  {
    if c.state.phase.ModelPhase? {
      UsageInTurn(env, c.state, i);
      ModelStepStartsFirst(env, c.state);
      var actions := ModelStep(env, c.state).actions;
      assert forall k :: 1 <= k < |actions| ==> actions[k] == actions[1..][k - 1];
    } else {
      assert LoopStep(env, c).actions[i] in LoopStep(env, c).actions;
      NoUsageInCall(env, c.state, c.recovering);
      assert false;
    }
  }

  lemma UsageInTurn(env: Env, s: ExecutionState, i: nat)
    requires i < |ModelStep(env, s).actions|
    requires ModelStep(env, s).actions[i].Emit? && ModelStep(env, s).actions[i].event == UsageRecorded
    ensures var actions := ModelStep(env, s).actions;
            && 0 < i && actions[0].Emit? && actions[0].event == ModelStarted && actions[0].checkpoint == Some(s)
            && actions[i].payload.UsagePayload?
            && actions[i].checkpoint == Some(ShiftState(s, actions[i].payload.spent))
            && actions[i].payload.total == actions[i].checkpoint.value.usage
  {
    ReceiveYieldsDeltas(env, s.turn, env.model(s.turn, s.messages), 0, EMPTY_TURN);
  }

  /**
    Resuming from a usage record: the resumed call repeats the turn from its start with exactly that
    turn's usage more in every total, if and only if no budget verdict of the rest tells the two apart.
   */
  lemma UsageReplayed(env: Env, request: RunRequest, i: nat) returns (j: nat)
    requires Uninterrupted(env) && Accepted(env, request, None)
    requires i < |Execute(env, request, None)|
    requires Execute(env, request, None)[i].Emit? && Execute(env, request, None)[i].event == UsageRecorded
    ensures var trace := Execute(env, request, None);
            && j < i && Boundary(trace[j]) && trace[j].event == ModelStarted
            && trace[i].checkpoint.Some? && trace[i].payload.UsagePayload?
            && var start, spent := trace[j].checkpoint.value, trace[i].payload.spent;
            && trace[i].checkpoint.value == ShiftState(start, spent)
            && Runnable(start)
            && (Execute(env, request, trace[i].checkpoint) == Shift(trace[j..], spent)
                <==> SameVerdicts(env, Cursor(start, false), spent))
  {
    var trace := Execute(env, request, None);
    ExecuteIsRun(env, request, None);
    var c := Cursor(InitialState(request), false);
    var run := Run(env, c);
    assert trace[i] == run[i - 1];
    var j' := UsageFollowsStart(env, c, i - 1);
    j := j' + 1;
    assert trace[j] == run[j'];
    var start, spent := trace[j].checkpoint.value, trace[i].payload.spent;
    var recovering := RestIsRun(env, c, j');
    assert trace[j..] == run[j'..];
    ResumesRunning(env, request, i);
    RunShifts(env, Cursor(start, false), spent);
  }

  lemma ResumesRunning(env: Env, request: RunRequest, i: nat)
    requires Uninterrupted(env) && Accepted(env, request, None)
    requires i < |Execute(env, request, None)| && StateIn(Execute(env, request, None)[i]).Some?
    ensures var s := StateIn(Execute(env, request, None)[i]).value;
            Runnable(s) && Execute(env, request, Some(s)) == Run(env, Cursor(s, s.phase.ToolsPhase?))
  {
    ExecuteFaithful(env, request, None);
    assert FaithfulAction(request, env.limits, Execute(env, request, None)[i]);
    ExecuteIsRun(env, request, Some(StateIn(Execute(env, request, None)[i]).value));
  }
}
