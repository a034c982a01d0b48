/**
  What holds along every trace of the engine, whatever the model, the tools and the
  context do, and across any number of restarts from checkpoints the engine made.
 */
module EngineInvariants {
  import opened Domain
  import opened EngineState
  import opened Engine

  // Progress order on states

  /** Lexicographic in turn, model before tools, and number of replies. */
  predicate AtOrBefore(s: ExecutionState, t: ExecutionState) {
    || s.turn < t.turn
    || (s.turn == t.turn && s.phase.ModelPhase?)
    || (s.turn == t.turn && !s.phase.ModelPhase? && !t.phase.ModelPhase? && s.nextTool <= t.nextTool)
  }

  lemma AtOrBeforeTransitive(s: ExecutionState, t: ExecutionState, u: ExecutionState)
    requires AtOrBefore(s, t) && AtOrBefore(t, u)
    ensures AtOrBefore(s, u)
  {
  }

  /** The state an action carries. */
  function StateIn(a: Action): Option<ExecutionState> {
    match a
    case Emit(_, _, checkpoint) => checkpoint
    case Dropped(_) => None
    case Invoke(state, _) => Some(state)
  }

  ghost predicate From(lo: ExecutionState, trace: seq<Action>) {
    forall i :: 0 <= i < |trace| && StateIn(trace[i]).Some? ==> AtOrBefore(lo, StateIn(trace[i]).value)
  }

  ghost predicate UpTo(trace: seq<Action>, hi: ExecutionState) {
    forall i :: 0 <= i < |trace| && StateIn(trace[i]).Some? ==> AtOrBefore(StateIn(trace[i]).value, hi)
  }

  ghost predicate Ascending(trace: seq<Action>) {
    forall i, j :: 0 <= i < j < |trace| && StateIn(trace[i]).Some? && StateIn(trace[j]).Some?
                   ==> AtOrBefore(StateIn(trace[i]).value, StateIn(trace[j]).value)
  }

  lemma Join(lo: ExecutionState, a: seq<Action>, mid: ExecutionState, b: seq<Action>)
    requires From(lo, a) && Ascending(a) && UpTo(a, mid) && AtOrBefore(lo, mid)
    requires From(mid, b) && Ascending(b)
    ensures From(lo, a + b) && Ascending(a + b)
  {
    var t := a + b;
    forall i | 0 <= i < |t| && StateIn(t[i]).Some?
      ensures AtOrBefore(lo, StateIn(t[i]).value)
    {
      if |a| <= i { AtOrBeforeTransitive(lo, mid, StateIn(b[i - |a|]).value); }
    }
    forall i, j | 0 <= i < j < |t| && StateIn(t[i]).Some? && StateIn(t[j]).Some?
      ensures AtOrBefore(StateIn(t[i]).value, StateIn(t[j]).value)
    {
      if i < |a| <= j { AtOrBeforeTransitive(StateIn(a[i]).value, mid, StateIn(b[j - |a|]).value); }
    }
  }

  /** A received stream yields only text deltas, and no state. */
  lemma {:induction false} ReceiveYieldsDeltas(env: Env, turn: int, stream: ModelStream, k: nat, acc: TurnResult)
    requires k <= |stream.received|
    ensures forall a :: a in Receive(env, turn, stream, k, acc).actions ==>
              a == Dropped(ModelDelta) || (a.Emit? && a.event == ModelDelta && a.payload.DeltaPayload? && a.checkpoint.None?)
    decreases |stream.received| - k
  {
    if k < |stream.received| {
      ReceiveYieldsDeltas(env, turn, stream, k + 1, Absorb(acc, stream.received[k]));
    }
  }

  lemma ToolStepAscends(env: Env, s: ExecutionState, recovering: bool)
    requires 0 <= s.nextTool < |s.pending| && s.phase.ToolsPhase?
    ensures var step := ToolStep(env, s, recovering);
            && From(s, step.actions) && Ascending(step.actions)
            && (step.next.Some? ==> AtOrBefore(s, step.next.value.state) && UpTo(step.actions, step.next.value.state))
  {
  }

  lemma ModelStepAscends(env: Env, s: ExecutionState)
    requires s.phase.ModelPhase?
    ensures var step := ModelStep(env, s);
            && From(s, step.actions) && Ascending(step.actions)
            && (step.next.Some? ==> AtOrBefore(s, step.next.value.state) && UpTo(step.actions, step.next.value.state))
  {
    var step := ModelStep(env, s);
    ReceiveYieldsDeltas(env, s.turn, env.model(s.turn, s.messages), 0, EMPTY_TURN);
    forall a | a in step.actions && StateIn(a).Some?
      ensures StateIn(a).value.turn == s.turn && StateIn(a).value.phase.ModelPhase?
    {
    }
  }

  lemma LoopStepAscends(env: Env, c: Cursor)
    requires Runnable(c.state)
    ensures var step := LoopStep(env, c);
            && From(c.state, step.actions) && Ascending(step.actions)
            && (step.next.Some? ==> AtOrBefore(c.state, step.next.value.state) && UpTo(step.actions, step.next.value.state))
  {
    if c.state.phase.ModelPhase? {
      ModelStepAscends(env, c.state);
    } else if c.state.nextTool < |c.state.pending| {
      ToolStepAscends(env, c.state, c.recovering);
    }
  }

  /** The states along a run never move back, and none lies before where the run started. */
  lemma {:induction false} RunAscends(env: Env, c: Cursor)
    requires Runnable(c.state)
    ensures From(c.state, Run(env, c)) && Ascending(Run(env, c))
    decreases Rank(env.limits, c.state), CallsLeft(c.state)
  {
    var step := LoopStep(env, c);
    LoopStepDescends(env, c);
    LoopStepAscends(env, c);
    if step.next.Some? {
      RunAscends(env, step.next.value);
      Join(c.state, step.actions, step.next.value.state, Run(env, step.next.value));
    }
  }

  lemma ExecuteAscends(env: Env, request: RunRequest, checkpoint: Option<ExecutionState>)
    ensures From(StartState(request, checkpoint), Execute(env, request, checkpoint))
    ensures Ascending(Execute(env, request, checkpoint))
  {
    if Accepted(env, request, checkpoint) && env.context(AtStart).Open? {
      var s := StartState(request, checkpoint);
      RunAscends(env, Cursor(s, checkpoint.Some? && s.phase.ToolsPhase?));
    }
  }

  // Terminal events

  predicate Terminal(a: Action) {
    a.Emit? && TerminalEvent(a.event)
  }

  /** A terminal output carries the result its event announces and no checkpoint. */
  predicate Announced(a: Action) {
    Terminal(a) ==> a.payload.ResultPayload? && ValidTerminalEvent(a.payload.result, a.event) && a.checkpoint.None?
  }

  /** No run creation, and at most one terminal event, which is last. */
  ghost predicate ClosesOnce(trace: seq<Action>) {
    && (forall i :: 0 <= i < |trace| ==> Announced(trace[i]))
    && (forall i :: 0 <= i < |trace| && trace[i].Emit? ==> trace[i].event != RunCreated)
    && (forall i :: 0 <= i < |trace| - 1 ==> !Terminal(trace[i]))
  }

  ghost predicate Closed(trace: seq<Action>) {
    trace != [] && Terminal(trace[|trace| - 1])
  }

  lemma CloseJoin(a: seq<Action>, b: seq<Action>)
    requires ClosesOnce(a) && !Closed(a) && ClosesOnce(b)
    ensures ClosesOnce(a + b)
    ensures Closed(a + b) <==> Closed(b)
  {
  }

  lemma ConclusionCloses(env: Env, s: ExecutionState, outcome: Result<TurnResult, ModelFailure>)
    ensures var step := ConcludeTurn(env, s, outcome);
            && ClosesOnce(step.actions)
            && (step.next.Some? ==> !Closed(step.actions))
            && (step.next.None? && Uninterrupted(env) ==> Closed(step.actions))
  {
    if outcome.Ok? {
      var result := outcome.value;
      CloseJoin(UsageActions(env, s, result), Decide(env, Record(s, result), result).actions);
    }
  }

  lemma ModelStepCloses(env: Env, s: ExecutionState)
    ensures var step := ModelStep(env, s);
            && ClosesOnce(step.actions)
            && (step.next.Some? ==> !Closed(step.actions))
            && (step.next.None? && Uninterrupted(env) ==> Closed(step.actions))
  {
    var started := EmitAt(env, AtModelStarted(s.turn), ModelStarted, StartedPayload(env.adapter, s.turn), Some(s));
    if s.turn <= env.limits.maxTurns && started.Emit? {
      var turn := RunModelTurn(env, s.turn, s.messages);
      ReceiveYieldsDeltas(env, s.turn, env.model(s.turn, s.messages), 0, EMPTY_TURN);
      ConclusionCloses(env, s, turn.outcome);
      CloseJoin([started] + turn.actions, ConcludeTurn(env, s, turn.outcome).actions);
    }
  }

  lemma ToolStepCloses(env: Env, s: ExecutionState, recovering: bool)
    requires 0 <= s.nextTool < |s.pending|
    ensures var step := ToolStep(env, s, recovering);
            && ClosesOnce(step.actions)
            && (step.next.Some? ==> !Closed(step.actions))
            && (step.next.None? && Uninterrupted(env) ==> Closed(step.actions))
  {
  }

  lemma LoopStepCloses(env: Env, c: Cursor)
    requires Runnable(c.state)
    ensures var step := LoopStep(env, c);
            && ClosesOnce(step.actions)
            && (step.next.Some? ==> !Closed(step.actions))
            && (step.next.None? && Uninterrupted(env) ==> Closed(step.actions))
  {
    if c.state.phase.ModelPhase? {
      ModelStepCloses(env, c.state);
    } else if c.state.nextTool < |c.state.pending| {
      ToolStepCloses(env, c.state, c.recovering);
    }
  }

  lemma {:induction false} RunClosesOnce(env: Env, c: Cursor)
    requires Runnable(c.state)
    ensures ClosesOnce(Run(env, c))
    ensures Uninterrupted(env) ==> Closed(Run(env, c))
    decreases Rank(env.limits, c.state), CallsLeft(c.state)
  {
    var step := LoopStep(env, c);
    LoopStepDescends(env, c);
    LoopStepCloses(env, c);
    if step.next.Some? {
      RunClosesOnce(env, step.next.value);
    }
  }

  /** The number of model turns a trace started. */
  function TurnsStarted(trace: seq<Action>): nat {
    if trace == [] then 0
    else TurnsStarted(trace[1..]) + (if trace[0].Emit? && trace[0].event == ModelStarted then 1 else 0)
  }

  lemma {:induction false} TurnsStartedAdd(a: seq<Action>, b: seq<Action>)
    ensures TurnsStarted(a + b) == TurnsStarted(a) + TurnsStarted(b)
  {
    if a == [] {
      assert a + b == b;
    } else {
      assert (a + b)[1..] == a[1..] + b;
      TurnsStartedAdd(a[1..], b);
    }
  }

  lemma {:induction false} NoTurnStarted(trace: seq<Action>)
    requires forall a :: a in trace && a.Emit? ==> a.event != ModelStarted
    ensures TurnsStarted(trace) == 0
  {
    if trace != [] {
      NoTurnStarted(trace[1..]);
    }
  }

  function TurnsLeft(limits: Limits, s: ExecutionState): nat {
    var from := if s.phase.ModelPhase? then s.turn else s.turn + 1;
    if limits.maxTurns < from then 0 else limits.maxTurns + 1 - from
  }

  lemma ModelStepStartsFirst(env: Env, s: ExecutionState)
    ensures var actions := ModelStep(env, s).actions;
            && actions != []
            && (forall a :: a in actions[1..] && a.Emit? ==> a.event != ModelStarted)
            && (s.turn > env.limits.maxTurns && actions[0].Emit? ==> actions[0].event != ModelStarted)
  {
    ReceiveYieldsDeltas(env, s.turn, env.model(s.turn, s.messages), 0, EMPTY_TURN);
  }

  lemma ModelStepStartsOnce(env: Env, s: ExecutionState)
    ensures var step := ModelStep(env, s);
            && TurnsStarted(step.actions) <= (if s.turn <= env.limits.maxTurns then 1 else 0)
            && (step.next.Some? ==> step.next.value.state.phase.ToolsPhase? && step.next.value.state.turn == s.turn)
  {
    ModelStepStartsFirst(env, s);
    NoTurnStarted(ModelStep(env, s).actions[1..]);
  }

  lemma LoopStepStartsTurns(env: Env, c: Cursor)
    requires Runnable(c.state)
    ensures var step := LoopStep(env, c);
            TurnsStarted(step.actions) + (if step.next.Some? then TurnsLeft(env.limits, step.next.value.state) else 0)
            <= TurnsLeft(env.limits, c.state)
  {
    var step := LoopStep(env, c);
    if c.state.phase.ModelPhase? {
      ModelStepStartsOnce(env, c.state);
    } else {
      NoTurnStarted(step.actions);
    }
  }

  /** A run starts no more model turns than its starting state leaves within the limit. */
  lemma {:induction false} RunTurnsBounded(env: Env, c: Cursor)
    requires Runnable(c.state)
    ensures TurnsStarted(Run(env, c)) <= TurnsLeft(env.limits, c.state)
    decreases Rank(env.limits, c.state), CallsLeft(c.state)
  {
    var step := LoopStep(env, c);
    LoopStepDescends(env, c);
    LoopStepStartsTurns(env, c);
    if step.next.Some? {
      RunTurnsBounded(env, step.next.value);
      TurnsStartedAdd(step.actions, Run(env, step.next.value));
    }
  }

  /** One call of `Execute`: terminal uniqueness always, and exactly one terminal when never interrupted. */
  lemma ExecuteCloses(env: Env, request: RunRequest, checkpoint: Option<ExecutionState>)
    ensures var trace := Execute(env, request, checkpoint);
            && (forall i :: 0 <= i < |trace| ==> Announced(trace[i]))
            && (forall i :: 0 <= i < |trace| - 1 ==> !Terminal(trace[i]))
            && (forall i :: 0 <= i < |trace| && trace[i].Emit? && trace[i].event == RunCreated ==> i == 0 && checkpoint.None?)
            && (Uninterrupted(env) ==> Closed(trace))
            && TurnsStarted(trace) <=
               (if Accepted(env, request, checkpoint) then TurnsLeft(env.limits, StartState(request, checkpoint)) else 0)
  {
    var s := StartState(request, checkpoint);
    var trace := Execute(env, request, checkpoint);
    if Accepted(env, request, checkpoint) && env.context(AtStart).Open? {
      var c := Cursor(s, checkpoint.Some? && s.phase.ToolsPhase?);
      RunClosesOnce(env, c);
      RunTurnsBounded(env, c);
      if checkpoint.None? {
        if trace[0].Emit? {
          TurnsStartedAdd(trace[..1], Run(env, c));
        }
        NoTurnStarted(trace[..1]);
      }
    } else {
      NoTurnStarted(trace);
    }
  }

  // Numbering of outputs

  function Invocations(trace: seq<Action>): nat {
    if trace == [] then 0 else Invocations(trace[..|trace| - 1]) + (if trace[|trace| - 1].Invoke? then 1 else 0)
  }

  /** Every emission takes a number, dropped or not: output sequences increase strictly, and with nothing dropped are 1, 2, 3, … */
  lemma {:induction false} OutputsNumbered(trace: seq<Action>)
    ensures forall i :: 0 <= i < |Outputs(trace)| ==> 1 <= Outputs(trace)[i].sequence <= Numbers(trace)
    ensures forall i, j :: 0 <= i < j < |Outputs(trace)| ==> Outputs(trace)[i].sequence < Outputs(trace)[j].sequence
    ensures Numbers(trace) + Invocations(trace) == |trace|
    ensures (forall a :: a in trace ==> !a.Dropped?) ==>
              Numbers(trace) == |Outputs(trace)| && forall i :: 0 <= i < |Outputs(trace)| ==> Outputs(trace)[i].sequence == i + 1
  {
    if trace != [] {
      OutputsNumbered(trace[..|trace| - 1]);
    }
  }

  /** The output is the i-th action's, under the number that the emission took. */
  predicate Carries(trace: seq<Action>, i: nat, out: Output)
    requires i < |trace|
  {
    && trace[i].Emit?
    && out.sequence == Numbers(trace[..i + 1]) && out.event == trace[i].event
    && out.payload == trace[i].payload && out.checkpoint == trace[i].checkpoint
  }

  /** What is emitted arrives as it is, and nothing else arrives. */
  lemma {:induction false} OutputsCarry(trace: seq<Action>, out: Output)
    ensures out in Outputs(trace) <==> exists i :: 0 <= i < |trace| && Carries(trace, i, out)
  {
    if trace != [] {
      var n := |trace| - 1;
      var before := trace[..n];
      OutputsCarry(before, out);
      assert trace[..n + 1] == trace;
      forall i | 0 <= i < n
        ensures Carries(before, i, out) <==> Carries(trace, i, out)
      {
        assert before[..i + 1] == trace[..i + 1];
      }
      if out in Outputs(before) {
        var i :| 0 <= i < n && Carries(before, i, out);
        assert Carries(trace, i, out);
      }
      if trace[n].Emit? && out == Output(Numbers(trace), trace[n].event, trace[n].payload, trace[n].checkpoint) {
        assert Carries(trace, n, out);
      }
    }
  }

  // Tool invocations

  predicate Earlier(s: ExecutionState, t: ExecutionState) {
    s.turn < t.turn || (s.turn == t.turn && s.nextTool < t.nextTool)
  }

  /** A handler is entered in the tool phase, for the next pending call, right after its checkpointed request. */
  predicate RequestedFirst(trace: seq<Action>, i: nat)
    requires i < |trace| && trace[i].Invoke?
  {
    var s := trace[i].state;
    && s.phase.ToolsPhase?
    && 0 <= s.nextTool < |s.pending|
    && 0 < i
    && trace[i - 1] == Emit(ToolRequested, RequestedPayload(s.pending[s.nextTool]), Some(s))
  }

  ghost predicate InvokesInOrder(trace: seq<Action>) {
    && (forall i :: 0 <= i < |trace| && trace[i].Invoke? ==> RequestedFirst(trace, i))
    && (forall i, j :: 0 <= i < j < |trace| && trace[i].Invoke? && trace[j].Invoke? ==>
          Earlier(trace[i].state, trace[j].state))
  }

  /** While recovered calls are replayed, only read-only tools run. */
  ghost predicate ReplaysReadOnly(trace: seq<Action>, turn: int) {
    forall i :: 0 <= i < |trace| && trace[i].Invoke? && trace[i].state.turn == turn ==> trace[i].readOnly
  }

  lemma ModelStepInvokesNothing(env: Env, s: ExecutionState)
    ensures var step := ModelStep(env, s);
            && (forall a :: a in step.actions ==> !a.Invoke?)
            && (step.next.Some? ==> step.next.value.state.turn == s.turn)
  {
    ReceiveYieldsDeltas(env, s.turn, env.model(s.turn, s.messages), 0, EMPTY_TURN);
  }

  lemma ToolStepInvokes(env: Env, s: ExecutionState, recovering: bool)
    requires 0 <= s.nextTool < |s.pending| && s.phase.ToolsPhase?
    ensures var step := ToolStep(env, s, recovering);
            && InvokesInOrder(step.actions)
            && (forall a :: a in step.actions && a.Invoke? ==> a.state == s)
            && (recovering ==> ReplaysReadOnly(step.actions, s.turn))
            && (step.next.Some? ==>
                  var next := step.next.value;
                  && next.state.turn == s.turn && next.state.phase.ToolsPhase?
                  && next.state.nextTool == s.nextTool + 1 && next.recovering == recovering)
  {
  }

  lemma LoopStepInvokes(env: Env, c: Cursor)
    requires Runnable(c.state)
    ensures var step := LoopStep(env, c);
            && InvokesInOrder(step.actions)
            && (forall a :: a in step.actions && a.Invoke? ==> a.state == c.state)
            && (c.recovering ==> ReplaysReadOnly(step.actions, c.state.turn))
            && (step.next.Some? ==>
                  var s := step.next.value.state;
                  && (!c.state.phase.ModelPhase? && s.turn == c.state.turn ==>
                        s.phase.ToolsPhase? && s.nextTool > c.state.nextTool && step.next.value.recovering == c.recovering)
                  && (s.turn != c.state.turn ==> s.turn == c.state.turn + 1 && !(exists a :: a in step.actions && a.Invoke?)))
  {
    if c.state.phase.ModelPhase? {
      ModelStepInvokesNothing(env, c.state);
    } else if c.state.nextTool < |c.state.pending| {
      ToolStepInvokes(env, c.state, c.recovering);
    }
  }

  /** Along a run each pending call is invoked at most once, in order, after its checkpointed request. */
  lemma {:induction false} RunInvokes(env: Env, c: Cursor)
    requires Runnable(c.state)
    ensures InvokesInOrder(Run(env, c))
    ensures c.recovering && c.state.phase.ToolsPhase? ==> ReplaysReadOnly(Run(env, c), c.state.turn)
    decreases Rank(env.limits, c.state), CallsLeft(c.state)
  {
    var step := LoopStep(env, c);
    LoopStepDescends(env, c);
    LoopStepInvokes(env, c);
    if step.next.Some? {
      var next := step.next.value;
      RunInvokes(env, next);
      RunAscends(env, next);
      var rest := Run(env, next);
      forall j | 0 <= j < |rest| && rest[j].Invoke?
        ensures AtOrBefore(next.state, rest[j].state)
      {
        assert StateIn(rest[j]) == Some(rest[j].state);
      }
    }
  }

  /** One call: invocations in order after their requests, and only read-only ones while replaying. */
  lemma ExecuteInvokes(env: Env, request: RunRequest, checkpoint: Option<ExecutionState>)
    ensures InvokesInOrder(Execute(env, request, checkpoint))
    ensures checkpoint.Some? && checkpoint.value.phase.ToolsPhase? ==>
              ReplaysReadOnly(Execute(env, request, checkpoint), checkpoint.value.turn)
  {
    if Accepted(env, request, checkpoint) && env.context(AtStart).Open? {
      var s := StartState(request, checkpoint);
      RunInvokes(env, Cursor(s, checkpoint.Some? && s.phase.ToolsPhase?));
    }
  }
}
