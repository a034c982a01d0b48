/** Concrete engine calls for which resuming is not the same as going on. */
module Examples {
  import opened Domain
  import opened EngineState
  import opened Engine
  import opened Recovery
  import opened UsageReplay

  const REQUEST := RunRequest("run", "tenant", "key", "input", Live, ZERO_TIME,
                              Manifest("release", "checksum", "", "", [], "", "", ""))

  lemma CreationFirst(env: Env)
    requires Uninterrupted(env) && Accepted(env, REQUEST, None)
    ensures exists created: Action :: created.Emit? && Execute(env, REQUEST, None) == [created] + Run(env, Cursor(InitialState(REQUEST), false))
  {
    var created := Emit(RunCreated, EngineCreatedPayload("release", Live), None);
    assert Execute(env, REQUEST, None) == [created] + Run(env, Cursor(InitialState(REQUEST), false));
  }

  // A call with side effects

  const WRITE := ToolCall("call", "write", "{}")
  const ONE_TURN := Limits(1, 1, 0, 0, 0)

  /** The model asks for one tool that is not read-only. */
  function WritingEnv(): Env {
    Env("adapter", ONE_TURN, map["write" := false], (turn, messages) => ModelStream([CallReady(WRITE)], None),
        (turn, index, call) => Content("done"), p => Open)
  }

  function WriteState(): ExecutionState {
    WithCalls(InitialState(REQUEST), TurnResult("", [WRITE], None, NO_USAGE))
  }

  lemma FirstTurn(env: Env, s: ExecutionState)
    requires env == WritingEnv() && s == InitialState(REQUEST)
    ensures ModelStep(env, s) ==
            Step([Emit(ModelStarted, StartedPayload("adapter", 1), Some(s))], Some(Cursor(WriteState(), false)))
  {
    var stream := env.model(1, s.messages);
    var absorbed := Absorb(EMPTY_TURN, CallReady(WRITE));
    assert absorbed == TurnResult("", [WRITE], None, NO_USAGE);
    assert Receive(env, 1, stream, 1, absorbed) == TurnRun([], Ok(absorbed));
    assert Receive(env, 1, stream, 0, EMPTY_TURN) == TurnRun([], Ok(absorbed));
  }

  lemma SecondPhase(env: Env)
    requires env == WritingEnv()
    ensures var run := Run(env, Cursor(WriteState(), false));
            |run| >= 2 && run[0] == Emit(ToolRequested, RequestedPayload(WRITE), Some(WriteState())) && run[1] == Invoke(WriteState(), false)
  {
    var step := ToolStep(env, WriteState(), false);
    assert step.actions[0] == Emit(ToolRequested, RequestedPayload(WRITE), Some(WriteState()));
    assert step.actions[1] == Invoke(WriteState(), false);
  }

  lemma WriteComesFourth()
    ensures var trace := Execute(WritingEnv(), REQUEST, None);
            && 3 < |trace|
            && trace[2] == Emit(ToolRequested, RequestedPayload(WRITE), Some(WriteState()))
            && trace[3] == Invoke(WriteState(), false)
  {
    var env, s := WritingEnv(), InitialState(REQUEST);
    FirstTurn(env, s);
    SecondPhase(env);
    assert Run(env, Cursor(s, false)) ==
           [Emit(ModelStarted, StartedPayload("adapter", 1), Some(s))] + Run(env, Cursor(WriteState(), false));
    CreationFirst(env);
  }

  /** Resumed at the request of such a call, the run does not go on as it would have. */
  lemma UnsafeResumeDiffers()
    ensures var env := WritingEnv();
            var trace := Execute(env, REQUEST, None);
            && Uninterrupted(env) && Accepted(env, REQUEST, None) && 2 < |trace| && Boundary(trace[2])
            && Runnable(trace[2].checkpoint.value) && ReachesUnsafe(env, trace[2].checkpoint.value)
            && Execute(env, REQUEST, trace[2].checkpoint) != trace[ResumeAt(trace, 2)..]
  {
    WriteComesFourth();
    ResumeTransparent(WritingEnv(), REQUEST, 2);
  }

  // A turn that spends more than half of the budget

  const SPENT := Usage(6, 0, 0)

  /** The model reports six input tokens, of ten allowed, and completes. */
  function SpendingEnv(): Env {
    Env("adapter", Limits(1, 0, 10, 0, 0), map[], (turn, messages) => ModelStream([UsageReport(SPENT), Completed("out")], None),
        (turn, index, call) => Content(""), p => Open)
  }

  const COMPLETED := TurnResult("", [], Some("out"), SPENT)

  lemma TwoEvents(env: Env, turn: int, stream: ModelStream, acc: TurnResult)
    requires Uninterrupted(env) && |stream.received| == 2 && stream.failure.None?
    requires !stream.received[0].TextDelta? && !stream.received[1].TextDelta?
    ensures Receive(env, turn, stream, 0, acc) == TurnRun([], Ok(Absorb(Absorb(acc, stream.received[0]), stream.received[1])))
  {
    assert Receive(env, turn, stream, 1, Absorb(acc, stream.received[0]))
           == Receive(env, turn, stream, 2, Absorb(Absorb(acc, stream.received[0]), stream.received[1]));
  }

  lemma SpendingAbsorbed()
    ensures Absorb(Absorb(EMPTY_TURN, UsageReport(SPENT)), Completed("out")) == COMPLETED
  {
  }

  lemma SpendingTurn(env: Env, s: ExecutionState)
    requires env == SpendingEnv() && s.turn == 1
    ensures RunModelTurn(env, 1, s.messages) == TurnRun([], Ok(COMPLETED))
  {
    TwoEvents(env, 1, env.model(1, s.messages), EMPTY_TURN);
    SpendingAbsorbed();
  }

  function SpentState(s: ExecutionState): ExecutionState {
    s.(usage := Plus(s.usage, SPENT))
  }

  lemma SpendingVerdict(env: Env, s: ExecutionState)
    requires env == SpendingEnv() && 0 <= s.usage.inputTokens
    ensures var verdict := Decide(env, s, COMPLETED);
            && |verdict.actions| == 1 && verdict.next.None? && verdict.actions[0].Emit?
            && verdict.actions[0].event == if s.usage.inputTokens > 10 then RunInconclusive else RunSucceeded
  {
  }

  lemma UsedTurn(env: Env, s: ExecutionState, result: TurnResult)
    requires Uninterrupted(env) && s.turn <= env.limits.maxTurns && result.usage != NO_USAGE
    requires RunModelTurn(env, s.turn, s.messages) == TurnRun([], Ok(result))
    ensures var used := Record(s, result);
            && ModelStep(env, s).actions ==
               [Emit(ModelStarted, StartedPayload(env.adapter, s.turn), Some(s))]
               + ([Emit(UsageRecorded, UsagePayload(s.turn, result.usage, used.usage), Some(used))] + Decide(env, used, result).actions)
            && ModelStep(env, s).next == Decide(env, used, result).next
  {
  }

  lemma SpendingRun(env: Env, s: ExecutionState)
    requires env == SpendingEnv() && s.turn == 1 && s.phase.ModelPhase? && Runnable(s) && 0 <= s.usage.inputTokens
    ensures var run := Run(env, Cursor(s, false));
            && |run| == 3 && run[0].Emit? && run[0].checkpoint == Some(s)
            && run[1] == Emit(UsageRecorded, UsagePayload(1, SPENT, Plus(s.usage, SPENT)), Some(SpentState(s)))
            && run[2].Emit? && run[2].event == if s.usage.inputTokens + 6 > 10 then RunInconclusive else RunSucceeded
  {
    SpendingTurn(env, s);
    UsedTurn(env, s, COMPLETED);
    SpendingVerdict(env, SpentState(s));
  }

  lemma SpendingVerdicts(env: Env, s: ExecutionState)
    requires env == SpendingEnv() && s.turn == 1 && s.phase.ModelPhase? && Runnable(s) && s.usage == NO_USAGE
    ensures !SameVerdicts(env, Cursor(s, false), SPENT)
  {
    SpendingTurn(env, s);
    assert !SameVerdict(env, s, SPENT);
  }

  /** Resumed at its usage record the turn is paid for twice, and the run that would have succeeded ends inconclusive. */
  lemma UsageReplayDiffers()
    ensures var env := SpendingEnv();
            var trace := Execute(env, REQUEST, None);
            && Uninterrupted(env) && Accepted(env, REQUEST, None) && |trace| == 4
            && trace[2].Emit? && trace[2].event == UsageRecorded && trace[3].Emit? && trace[3].event == RunSucceeded
            && !SameVerdicts(env, Cursor(InitialState(REQUEST), false), SPENT)
            && var resumed := Execute(env, REQUEST, trace[2].checkpoint);
               |resumed| == 3 && resumed[2].Emit? && resumed[2].event == RunInconclusive
  {
    var env, s := SpendingEnv(), InitialState(REQUEST);
    SpendingRun(env, s);
    SpendingVerdicts(env, s);
    CreationFirst(env);
    var s' := SpentState(s);
    SpendingRun(env, s');
    assert Execute(env, REQUEST, Some(s')) == Run(env, Cursor(s', false));
  }
}
