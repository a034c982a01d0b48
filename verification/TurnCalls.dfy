/** Where the calls of a turn stand in a trace, and how a second engine call comes to make them again. */
module TurnCalls {
  import opened Domain
  import opened EngineState
  import opened Engine
  import opened EngineInvariants
  import opened Transcript
  import opened UsageReplay
  import opened Workers
  import opened Backlog

  // Places

  /** The turn of a call begins with a model step, unless the run started inside its tool phase. */
  lemma {:induction false} TurnBegins(env: Env, c: Cursor, i: nat) returns (b: nat, m: Cursor)
    requires Runnable(c.state) && i < |Run(env, c)| && Run(env, c)[i].Invoke?
    requires c.state.phase.ModelPhase? || c.state.turn != Run(env, c)[i].state.turn
    ensures b <= i && Runnable(m.state) && m.state.phase.ModelPhase? && m.state.turn == Run(env, c)[i].state.turn
    ensures Run(env, c)[b..] == Run(env, m)
    decreases Rank(env.limits, c.state), CallsLeft(c.state)
  {
    LoopStepDescends(env, c);
    LoopStepInvokes(env, c);
    var step := LoopStep(env, c);
    if c.state.phase.ModelPhase? && c.state.turn == Run(env, c)[i].state.turn {
      b, m := 0, c;
    } else {
      ModelPhaseInvokesNothing(env, c);
      assert |step.actions| <= i;
      RunStep(env, c);
      var rest := Run(env, step.next.value);
      assert Run(env, c)[i] == rest[i - |step.actions|];
      b, m := TurnBegins(env, step.next.value, i - |step.actions|);
      assert Run(env, c)[|step.actions| + b..] == rest[b..];
      b := |step.actions| + b;
    }
  }

  lemma ModelPhaseInvokesNothing(env: Env, c: Cursor)
    requires Runnable(c.state)
    ensures c.state.phase.ModelPhase? ==> forall a :: a in LoopStep(env, c).actions ==> !a.Invoke?
    ensures c.state.phase.ModelPhase? && LoopStep(env, c).next.Some? ==>
              LoopStep(env, c).next.value.state.turn == c.state.turn && !LoopStep(env, c).next.value.state.phase.ModelPhase?
  {
    if c.state.phase.ModelPhase? {
      ModelStepInvokesNothing(env, c.state);
    }
  }

  /** What the model step of a turn with calls did. */
  ghost predicate Asked(env: Env, s: ExecutionState, result: TurnResult) {
    && s.phase.ModelPhase? && s.turn <= env.limits.maxTurns
    && RunModelTurn(env, s.turn, s.messages).outcome == Ok(result)
    && ExceededBudget(env.limits, Record(s, result).usage).None?
    && result.final.None? && result.calls != []
    && s.toolCallsUsed + |result.calls| <= env.limits.maxToolCalls
  }

  function CallsState(s: ExecutionState, result: TurnResult): ExecutionState {
    WithCalls(Record(s, result), result)
  }

  lemma AskedStep(env: Env, s: ExecutionState) returns (result: TurnResult)
    requires s.phase.ModelPhase? && ModelStep(env, s).next.Some?
    ensures Asked(env, s, result)
    ensures ModelStep(env, s).next == Some(Cursor(CallsState(s, result), false))
    ensures var actions := ModelStep(env, s).actions;
            actions == [Emit(ModelStarted, StartedPayload(env.adapter, s.turn), Some(s))]
                       + RunModelTurn(env, s.turn, s.messages).actions + UsageActions(env, s, result)
  {
    result := RunModelTurn(env, s.turn, s.messages).outcome.value;
  }

  lemma CallsFollow(env: Env, m: Cursor, i: nat) returns (result: TurnResult)
    requires Runnable(m.state) && m.state.phase.ModelPhase? && i < |Run(env, m)| && Run(env, m)[i].Invoke?
    ensures Asked(env, m.state, result)
    ensures ModelStep(env, m.state).next == Some(Cursor(CallsState(m.state, result), false))
    ensures |ModelStep(env, m.state).actions| <= i
    ensures Run(env, m) == ModelStep(env, m.state).actions + Run(env, Cursor(CallsState(m.state, result), false))
  {
    LoopStepDescends(env, m);
    ModelPhaseInvokesNothing(env, m);
    var step := LoopStep(env, m);
    assert |step.actions| <= i;
    RunStep(env, m);
    result := AskedStep(env, m.state);
  }

  lemma CallIsThird(env: Env, c: Cursor, i: nat)
    requires Runnable(c.state) && c.state.phase.ToolsPhase? && i < |Run(env, c)| && Run(env, c)[i].Invoke?
    requires Run(env, c)[i].state.turn == c.state.turn
    ensures c.state.nextTool < |c.state.pending| && |LoopStep(env, c).actions| >= 2
    ensures LoopStep(env, c).actions[0] == Emit(ToolRequested, RequestedPayload(c.state.pending[c.state.nextTool]), Some(c.state))
    ensures LoopStep(env, c).actions[1] == Invoke(c.state, ReadOnly(env, c.state.pending[c.state.nextTool]))
    ensures i == 1 || (3 <= i && LoopStep(env, c).next.Some? && |LoopStep(env, c).actions| == 3 && LoopStep(env, c).actions[2].Emit?)
    ensures Run(env, c)[..2] == LoopStep(env, c).actions[..2]
  {
    LoopStepDescends(env, c);
    var step := LoopStep(env, c);
    assert i < |step.actions| ==> Run(env, c)[i] == step.actions[i];
    if c.state.nextTool == |c.state.pending| {
      RunAscends(env, step.next.value);
      assert false;
    }
  }

  lemma CountCall(actions: seq<Action>, rest: seq<Action>, i: nat)
    requires |actions| == 3 <= i && i - 3 <= |rest| && actions[0].Emit? && actions[1].Invoke? && actions[2].Emit?
    ensures Waiting(actions + rest, 0, i) == 2 + Waiting(rest, 0, i - 3)
  {
    var run := actions + rest;
    assert Waiting(run, 0, 1) == 1 && Waiting(run, 0, 2) == 1 && Waiting(run, 0, 3) == 2;
    WaitingSplits(run, 0, 3, i);
    WaitingBehind(actions, rest, 0, i - 3);
  }

  /** Between the request a tool phase starts with and the entering of a call lie two outputs for each call before. */
  lemma {:induction false} CallPlace(env: Env, c: Cursor, i: nat)
    requires Runnable(c.state) && c.state.phase.ToolsPhase? && i < |Run(env, c)| && Run(env, c)[i].Invoke?
    requires Run(env, c)[i].state.turn == c.state.turn
    ensures 0 < i && Run(env, c)[0].Emit? && Run(env, c)[0].event == ToolRequested && Run(env, c)[0].checkpoint == Some(c.state)
    ensures Waiting(Run(env, c), 0, i) == 2 * (Run(env, c)[i].state.nextTool - c.state.nextTool) + 1
    decreases CallsLeft(c.state)
  {
    CallIsThird(env, c, i);
    var run, step := Run(env, c), LoopStep(env, c);
    assert run[0] == run[..2][0] && run[1] == run[..2][1];
    if i == 1 {
      assert Waiting(run, 0, 1) == 1;
    } else {
      LoopStepInvokes(env, c);
      RunStep(env, c);
      var rest := Run(env, step.next.value);
      assert run[i] == rest[i - 3];
      CallPlace(env, step.next.value, i - 3);
      CountCall(step.actions, rest, i);
    }
  }

  /** The request of the first call of a write's turn, with the state the turn's calls start from. */
  ghost predicate TurnOf(env: Env, trace: seq<Action>, i: nat, b: nat, m: Cursor, result: TurnResult) {
    && i < |trace| && trace[i].Invoke?
    && Runnable(m.state) && Asked(env, m.state, result) && m.state.turn == trace[i].state.turn
    && b + |ModelStep(env, m.state).actions| < i
    && trace[b..] == Run(env, m)
    && Run(env, m) == ModelStep(env, m.state).actions + Run(env, Cursor(CallsState(m.state, result), false))
  }

  function Request0(env: Env, b: nat, m: Cursor): nat {
    b + |ModelStep(env, m.state).actions|
  }

  lemma Suffixes<T>(s: seq<T>, b: nat, n: nat)
    requires b + n <= |s|
    ensures s[b..][n..] == s[b + n..]
    ensures s == s[..b + n] + s[b + n..]
  {
  }

  lemma RestBehind<T>(a: seq<T>, b: seq<T>)
    ensures (a + b)[|a|..] == b
  {
  }

  lemma RequestLeads(env: Env, trace: seq<Action>, i: nat, b: nat, m: Cursor, result: TurnResult)
    requires TurnOf(env, trace, i, b, m, result)
    ensures var a := Request0(env, b, m);
            && trace[a].Emit? && trace[a].event == ToolRequested && trace[a].checkpoint == Some(CallsState(m.state, result))
            && Waiting(trace, a, i) == 2 * trace[i].state.nextTool + 1
            && trace[a..] == Run(env, Cursor(CallsState(m.state, result), false))
  {
    var c := Cursor(CallsState(m.state, result), false);
    var a, rest := Request0(env, b, m), Run(env, c);
    Suffixes(trace, b, |ModelStep(env, m.state).actions|);
    RestBehind(ModelStep(env, m.state).actions, rest);
    PlaceBehind(env, trace, i, a, c, rest);
  }

  lemma CountBehind(trace: seq<Action>, a: nat, i: nat)
    requires a <= i <= |trace|
    ensures Waiting(trace, a, i) == Waiting(trace[a..], 0, i - a)
  {
    Suffixes(trace, 0, a);
    WaitingBehind(trace[..a], trace[a..], 0, i - a);
  }

  lemma PlaceBehind(env: Env, trace: seq<Action>, i: nat, a: nat, c: Cursor, rest: seq<Action>)
    requires Runnable(c.state) && c.state.phase.ToolsPhase? && c.state.nextTool == 0
    requires a <= i < |trace| && trace[i].Invoke? && trace[i].state.turn == c.state.turn
    requires trace[a..] == rest && rest == Run(env, c)
    ensures trace[a].Emit? && trace[a].event == ToolRequested && trace[a].checkpoint == Some(c.state)
    ensures Waiting(trace, a, i) == 2 * trace[i].state.nextTool + 1
  {
    assert trace[i] == rest[i - a] && trace[a] == rest[0];
    CallPlace(env, c, i - a);
    CountBehind(trace, a, i);
  }

  /** Before its run an engine call puts out its creation event at most. */
  lemma ExecuteRuns(env: Env, request: RunRequest, checkpoint: Option<ExecutionState>, i: nat) returns (first: nat)
    requires i < |Execute(env, request, checkpoint)| && Execute(env, request, checkpoint)[i].Invoke?
    ensures var s := StartState(request, checkpoint);
            && Accepted(env, request, checkpoint)
            && first <= i && Execute(env, request, checkpoint)[first..] == Run(env, Cursor(s, checkpoint.Some? && s.phase.ToolsPhase?))
  {
    first := if checkpoint.Some? then 0 else 1;
  }

  /** A call with side effects in the trace of an engine call: its turn was asked for in this very call. */
  lemma WriteHasTurn(env: Env, request: RunRequest, checkpoint: Option<ExecutionState>, i: nat)
    returns (b: nat, m: Cursor, result: TurnResult)
    requires i < |Execute(env, request, checkpoint)| && Execute(env, request, checkpoint)[i].Invoke?
    requires !Execute(env, request, checkpoint)[i].readOnly
    ensures TurnOf(env, Execute(env, request, checkpoint), i, b, m, result)
  {
    var trace, s := Execute(env, request, checkpoint), StartState(request, checkpoint);
    var c := Cursor(s, checkpoint.Some? && s.phase.ToolsPhase?);
    var first := ExecuteRuns(env, request, checkpoint, i);
    ExecuteInvokes(env, request, checkpoint);
    b, m, result := RunHasTurn(env, trace, c, first, i);
  }

  lemma RunHasTurn(env: Env, trace: seq<Action>, c: Cursor, first: nat, i: nat) returns (b: nat, m: Cursor, result: TurnResult)
    requires Runnable(c.state) && first <= i < |trace| && trace[i].Invoke? && trace[first..] == Run(env, c)
    requires c.state.phase.ModelPhase? || c.state.turn != trace[i].state.turn
    ensures TurnOf(env, trace, i, b, m, result)
  {
    assert trace[i] == Run(env, c)[i - first];
    var b';
    b', m := TurnBegins(env, c, i - first);
    b := first + b';
    Suffixes(trace, first, b');
    assert trace[i] == trace[b..][i - b];
    result := CallsFollow(env, m, i - b);
    TurnIsFull(env, m, i - b, result);
  }

  lemma TurnIsFull(env: Env, m: Cursor, i: nat, result: TurnResult)
    requires Runnable(m.state) && m.state.phase.ModelPhase? && i < |Run(env, m)| && Run(env, m)[i].Invoke?
    requires Run(env, m)[i].state.turn == m.state.turn
    requires |ModelStep(env, m.state).actions| <= i
    requires Run(env, m) == ModelStep(env, m.state).actions + Run(env, Cursor(CallsState(m.state, result), false))
    ensures |ModelStep(env, m.state).actions| < i
  {
    var c := Cursor(CallsState(m.state, result), false);
    var k := i - |ModelStep(env, m.state).actions|;
    assert Run(env, c)[k] == Run(env, m)[i];
    CallPlace(env, c, k);
  }

  // The same calls asked for again

  function QuietEvent(event: ModelEvent): ModelEvent {
    if event.UsageReport? then UsageReport(NO_USAGE) else event
  }

  function QuietStream(stream: ModelStream): ModelStream {
    stream.(received := seq(|stream.received|, k requires 0 <= k < |stream.received| => QuietEvent(stream.received[k])))
  }

  /** An environment that answers alike, but reports nothing as spent and never interrupts. */
  function Quiet(env: Env): Env {
    env.(model := (turn, messages) => QuietStream(env.model(turn, messages)), context := p => Open)
  }

  /** A stream that is received to its end goes on from event to event. */
  lemma {:induction false} ReceiveOn(env: Env, turn: int, stream: ModelStream, k: nat, acc: TurnResult)
    requires k < |stream.received|
    requires Receive(env, turn, stream, k, acc).outcome.Ok? || (env.context(InStream(turn, k)).Open? && env.context(AtDelta(turn, k)).Open?)
    ensures Receive(env, turn, stream, k, acc).outcome == Receive(env, turn, stream, k + 1, Absorb(acc, stream.received[k])).outcome
  {
  }

  lemma QuietAbsorb(acc: TurnResult, event: ModelEvent)
    ensures Absorb(acc.(usage := NO_USAGE), QuietEvent(event)) == Absorb(acc, event).(usage := NO_USAGE)
  {
  }

  lemma {:induction false} QuietReceive(env: Env, turn: int, stream: ModelStream, k: nat, acc: TurnResult)
    requires k <= |stream.received| && Receive(env, turn, stream, k, acc).outcome.Ok?
    ensures Receive(Quiet(env), turn, QuietStream(stream), k, acc.(usage := NO_USAGE)).outcome
            == Ok(Receive(env, turn, stream, k, acc).outcome.value.(usage := NO_USAGE))
    decreases |stream.received| - k
  {
    if k < |stream.received| {
      var event := stream.received[k];
      ReceiveOn(env, turn, stream, k, acc);
      QuietReceive(env, turn, stream, k + 1, Absorb(acc, event));
      ReceiveOn(Quiet(env), turn, QuietStream(stream), k, acc.(usage := NO_USAGE));
      QuietAbsorb(acc, event);
    }
  }

  /** From a turn's usage on, the turn is asked again without new usage and comes to the same calls. */
  lemma QuietAsked(env: Env, s: ExecutionState, result: TurnResult)
    requires Asked(env, s, result)
    ensures ModelStep(Quiet(env), Record(s, result)).next == Some(Cursor(CallsState(s, result), false))
  {
    QuietReceive(env, s.turn, env.model(s.turn, s.messages), 0, EMPTY_TURN);
    var quiet := result.(usage := NO_USAGE);
    assert RunModelTurn(Quiet(env), s.turn, s.messages).outcome == Ok(quiet);
    assert Record(Record(s, result), quiet) == Record(s, result);
  }

  /** The calls of a tool phase are entered alike. */
  lemma {:induction false} SameCalls(env: Env, c: Cursor, i: nat)
    requires Runnable(c.state) && c.state.phase.ToolsPhase? && i < |Run(env, c)| && Run(env, c)[i].Invoke?
    requires Run(env, c)[i].state.turn == c.state.turn
    ensures i < |Run(Quiet(env), c)| && Run(Quiet(env), c)[i] == Run(env, c)[i]
    decreases CallsLeft(c.state)
  {
    CallIsThird(env, c, i);
    var run, step := Run(env, c), LoopStep(env, c);
    if i == 1 {
      FirstCallAlike(env, c);
      assert run[1] == run[..2][1];
    } else {
      LoopStepInvokes(env, c);
      CallAlike(env, c);
      RunStep(env, c);
      RunStep(Quiet(env), c);
      assert run[i] == Run(env, step.next.value)[i - 3];
      SameCalls(env, step.next.value, i - 3);
    }
  }

  lemma CallAlike(env: Env, c: Cursor)
    requires Runnable(c.state) && c.state.phase.ToolsPhase? && c.state.nextTool < |c.state.pending|
    requires LoopStep(env, c).next.Some? && |LoopStep(env, c).actions| == 3 && LoopStep(env, c).actions[2].Emit?
    ensures LoopStep(Quiet(env), c) == LoopStep(env, c)
  {
  }

  lemma FirstCallAlike(env: Env, c: Cursor)
    requires Runnable(c.state) && c.state.phase.ToolsPhase? && c.state.nextTool < |c.state.pending|
    requires |LoopStep(env, c).actions| >= 2
    requires LoopStep(env, c).actions[1] == Invoke(c.state, ReadOnly(env, c.state.pending[c.state.nextTool]))
    ensures |Run(Quiet(env), c)| >= 2 && Run(Quiet(env), c)[1] == Invoke(c.state, ReadOnly(env, c.state.pending[c.state.nextTool]))
  {
    LoopStepDescends(Quiet(env), c);
    assert LoopStep(Quiet(env), c).actions[1] == Invoke(c.state, ReadOnly(env, c.state.pending[c.state.nextTool]));
  }

  // The checkpoint to resume from

  /** The latest checkpoint once the first n actions have been dealt with. */
  function LastSaved(trace: seq<Action>, n: nat, start: Option<ExecutionState>): Option<ExecutionState>
    requires n <= |trace|
  {
    if n == 0 then start
    else if Logs(trace[n - 1]) && trace[n - 1].checkpoint.Some? then trace[n - 1].checkpoint
    else LastSaved(trace, n - 1, start)
  }

  lemma {:induction false} LastSavedStays(trace: seq<Action>, n: nat, m: nat, start: Option<ExecutionState>)
    requires n <= m <= |trace|
    requires forall i :: n <= i < m && Logs(trace[i]) ==> trace[i].checkpoint.None?
    ensures LastSaved(trace, m, start) == LastSaved(trace, n, start)
  {
    if n < m {
      LastSavedStays(trace, n, m - 1, start);
    }
  }

  /** Before the first request of a turn the latest checkpoint holds the turn's start with its usage. */
  lemma SavedBeforeCalls(env: Env, trace: seq<Action>, i: nat, b: nat, m: Cursor, result: TurnResult, start: Option<ExecutionState>)
    requires TurnOf(env, trace, i, b, m, result)
    ensures LastSaved(trace, Request0(env, b, m), start) == Some(Record(m.state, result))
  {
    var s := m.state;
    var actions := ModelStep(env, s).actions;
    var deltas := RunModelTurn(env, s.turn, s.messages).actions;
    var result' := AskedStep(env, s);
    ReceiveYieldsDeltas(env, s.turn, env.model(s.turn, s.messages), 0, EMPTY_TURN);
    TurnSaves(trace, b, Run(env, m), actions, s, Emit(ModelStarted, StartedPayload(env.adapter, s.turn), Some(s)), deltas,
              UsageActions(env, s, result), Record(s, result), start);
  }

  lemma TurnSaves(trace: seq<Action>, b: nat, run: seq<Action>, actions: seq<Action>, s: ExecutionState, started: Action,
                  deltas: seq<Action>, recorded: seq<Action>, after: ExecutionState, start: Option<ExecutionState>)
    requires b + |actions| <= |trace| && trace[b..] == run && actions <= run && actions == [started] + deltas + recorded
    requires Logs(started) && started.checkpoint == Some(s)
    requires forall a :: a in deltas && a.Emit? ==> a.checkpoint.None?
    requires if recorded == [] then after == s
             else |recorded| == 1 && Logs(recorded[0]) && recorded[0].checkpoint == Some(after)
    ensures LastSaved(trace, b + |actions|, start) == Some(after)
  {
    forall k | 0 <= k < |actions|
      ensures trace[b + k] == actions[k]
    {
      assert trace[b + k] == run[k];
    }
    assert trace[b] == actions[0];
    if recorded == [] {
      forall k | b + 1 <= k < b + |actions| && Logs(trace[k])
        ensures trace[k].checkpoint.None?
      {
        assert trace[b + (k - b)] == actions[k - b] == deltas[k - b - 1];
      }
      LastSavedStays(trace, b + 1, b + |actions|, start);
    } else {
      assert trace[b + (|actions| - 1)] == actions[|actions| - 1] == recorded[0];
    }
  }

  /** Resumed from there, a second engine call comes to make the very same call again. */
  lemma AskedAgain(env: Env, request: RunRequest, i: nat, b: nat, m: Cursor, result: TurnResult) returns (j: nat)
    requires TurnOf(env, Execute(env, request, None), i, b, m, result)
    ensures var again := Execute(Quiet(env), request, Some(Record(m.state, result)));
            j < |again| && again[j] == Execute(env, request, None)[i]
  {
    var trace := Execute(env, request, None);
    var s, c := Record(m.state, result), Cursor(CallsState(m.state, result), false);
    RequestLeads(env, trace, i, b, m, result);
    var a := Request0(env, b, m);
    assert trace[i] == Run(env, c)[i - a];
    SameCalls(env, c, i - a);
    QuietAsked(env, m.state, result);
    TurnStartValid(env, request, i, b, m, result);
    QuietRun(env, request, s, c);
    j := |ModelStep(Quiet(env), s).actions| + (i - a);
  }

  lemma TurnStartValid(env: Env, request: RunRequest, i: nat, b: nat, m: Cursor, result: TurnResult)
    requires TurnOf(env, Execute(env, request, None), i, b, m, result)
    ensures Accepted(env, request, Some(Record(m.state, result)))
  {
    var trace := Execute(env, request, None);
    ExecuteFaithful(env, request, None);
    assert trace[b] == trace[b..][0];
    var result' := AskedStep(env, m.state);
    assert FaithfulAction(request, env.limits, trace[b]);
    assert StateIn(trace[b]) == Some(m.state);
    var _ := ExecuteRuns(env, request, None, i);
  }

  lemma {:induction false} QuietRun(env: Env, request: RunRequest, s: ExecutionState, c: Cursor)
    requires Accepted(env, request, Some(s)) && s.phase.ModelPhase? && Runnable(c.state)
    requires ModelStep(Quiet(env), s).next == Some(c)
    ensures Execute(Quiet(env), request, Some(s)) == ModelStep(Quiet(env), s).actions + Run(Quiet(env), c)
  {
    RunStep(Quiet(env), Cursor(s, false));
  }
}
