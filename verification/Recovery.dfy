/**
  Crash recovery compared with never having crashed: what a resumed call does, action by
  action, against the rest of the call that made the checkpoint.
 */
module Recovery {
  import opened Domain
  import opened EngineState
  import opened Engine
  import opened EngineInvariants
  import opened Transcript

  /** Where a trace goes on after the checkpoint at index i: a request or model start is issued again. */
  function ResumeAt(trace: seq<Action>, i: nat): nat
    requires i < |trace| && trace[i].Emit?
  {
    if trace[i].event == ToolCompleted then i + 1 else i
  }

  /** An output whose checkpoint lies at a step boundary: every checkpointed event but USAGE_RECORDED. */
  predicate Boundary(a: Action) {
    a.Emit? && a.checkpoint.Some? && a.event != UsageRecorded
  }

  lemma ModelStepBoundary(env: Env, s: ExecutionState, i: nat)
    requires i < |ModelStep(env, s).actions| && Boundary(ModelStep(env, s).actions[i])
    ensures i == 0 && ModelStep(env, s).actions[0].event == ModelStarted && ModelStep(env, s).actions[0].checkpoint == Some(s)
  {
    ReceiveYieldsDeltas(env, s.turn, env.model(s.turn, s.messages), 0, EMPTY_TURN);
  }

  lemma ToolStepBoundary(env: Env, s: ExecutionState, recovering: bool, i: nat)
    requires 0 <= s.nextTool < |s.pending|
    requires i < |ToolStep(env, s, recovering).actions| && Boundary(ToolStep(env, s, recovering).actions[i])
    ensures var step := ToolStep(env, s, recovering);
            || (i == 0 && step.actions[0].event == ToolRequested && step.actions[0].checkpoint == Some(s))
            || (i == 2 && |step.actions| == 3 && step.actions[2].event == ToolCompleted && step.next.Some?
                && step.next.value.recovering == recovering && step.actions[2].checkpoint == Some(step.next.value.state))
  {
  }

  lemma RestOfStep(env: Env, c: Cursor, i: nat)
    requires Runnable(c.state)
    requires i < |LoopStep(env, c).actions| && Boundary(LoopStep(env, c).actions[i])
    ensures i < |Run(env, c)| && Run(env, c)[i] == LoopStep(env, c).actions[i]
    ensures var s := Run(env, c)[i].checkpoint.value;
            && Runnable(s)
            && Run(env, c)[ResumeAt(Run(env, c), i)..] == Run(env, Cursor(s, c.recovering))
            && (c.recovering && ReachesUnsafe(env, s) ==> ReachesUnsafe(env, c.state))
  {
    LoopStepDescends(env, c);
    var trace := Run(env, c);
    if c.state.phase.ModelPhase? {
      ModelStepBoundary(env, c.state, i);
      assert trace[0..] == trace;
    } else {
      ToolStepBoundary(env, c.state, c.recovering, i);
      assert trace[0..] == trace;
    }
  }

  lemma RestOfRest(actions: seq<Action>, rest: seq<Action>, i: nat)
    requires |actions| <= i < |actions| + |rest| && rest[i - |actions|].Emit?
    ensures (actions + rest)[i] == rest[i - |actions|]
    ensures (actions + rest)[ResumeAt(actions + rest, i)..] == rest[ResumeAt(rest, i - |actions|)..]
  {
  }

  /** Behind every boundary checkpoint lies the run from that checkpoint. */
  lemma {:induction false} RestIsRun(env: Env, c: Cursor, i: nat) returns (recovering: bool)
    requires Runnable(c.state)
    requires i < |Run(env, c)| && Boundary(Run(env, c)[i])
    ensures recovering ==> c.recovering
    ensures var s := Run(env, c)[i].checkpoint.value;
            && Runnable(s)
            && Run(env, c)[ResumeAt(Run(env, c), i)..] == Run(env, Cursor(s, recovering))
            && (recovering && ReachesUnsafe(env, s) ==> ReachesUnsafe(env, c.state))
    decreases Rank(env.limits, c.state), CallsLeft(c.state)
  {
    LoopStepDescends(env, c);
    var step := LoopStep(env, c);
    var trace := Run(env, c);
    recovering := c.recovering;
    if i < |step.actions| {
      RestOfStep(env, c, i);
    } else {
      var rest := Run(env, step.next.value);
      RestOfRest(step.actions, rest, i);
      recovering := RestIsRun(env, step.next.value, i - |step.actions|);
      if recovering {
        LoopStepKeepsFlag(env, c);
        UnsafeBehind(env, c);
      }
    }
  }

  /** While calls are replayed, an unsafe one behind the next call is behind this one. */
  lemma UnsafeBehind(env: Env, c: Cursor)
    requires Runnable(c.state) && LoopStep(env, c).next.Some? && LoopStep(env, c).next.value.recovering
    ensures Runnable(LoopStep(env, c).next.value.state)
    ensures ReachesUnsafe(env, LoopStep(env, c).next.value.state) ==> ReachesUnsafe(env, c.state)
  {
  }

  lemma LoopStepKeepsFlag(env: Env, c: Cursor)
    requires Runnable(c.state)
    ensures LoopStep(env, c).next.Some? && LoopStep(env, c).next.value.recovering ==> c.recovering
  {
  }

  /** Replaying the pending calls comes to a call that is not registered as read-only. */
  predicate ReachesUnsafe(env: Env, s: ExecutionState)
    requires Runnable(s)
    decreases CallsLeft(s)
  {
    s.phase.ToolsPhase? && s.nextTool < |s.pending| &&
    var call := s.pending[s.nextTool];
    (ReadOnly(env, call) ==>
       var outcome := ExecuteTool(env, s.turn, s.nextTool, call);
       outcome.Content? && ReachesUnsafe(env, AfterTool(s, call, outcome.content)))
  }

  /** Registered read-only calls are enough for a replay never to reach an unsafe one. */
  lemma {:induction false} ReadOnlyIsSafe(env: Env, s: ExecutionState)
    requires Runnable(s)
    requires s.phase.ToolsPhase? ==> forall k :: s.nextTool <= k < |s.pending| ==> ReadOnly(env, s.pending[k])
    ensures !ReachesUnsafe(env, s)
    decreases CallsLeft(s)
  {
    if s.phase.ToolsPhase? && s.nextTool < |s.pending| {
      var call := s.pending[s.nextTool];
      var outcome := ExecuteTool(env, s.turn, s.nextTool, call);
      if outcome.Content? {
        ReadOnlyIsSafe(env, AfterTool(s, call, outcome.content));
      }
    }
  }

  /** Recovery mode changes a run exactly when the replay reaches an unsafe call. */
  lemma {:induction false} FlagMatters(env: Env, s: ExecutionState)
    requires Uninterrupted(env) && Runnable(s)
    ensures Run(env, Cursor(s, true)) == Run(env, Cursor(s, false)) <==> !ReachesUnsafe(env, s)
    decreases CallsLeft(s)
  {
    var on, off := LoopStep(env, Cursor(s, true)), LoopStep(env, Cursor(s, false));
    if s.phase.ToolsPhase? && s.nextTool < |s.pending| {
      var call := s.pending[s.nextTool];
      if ReadOnly(env, call) {
        FlagStep(env, s);
        if on.next.Some? {
          FlagMatters(env, on.next.value.state);
          var restOn, restOff := Run(env, on.next.value), Run(env, off.next.value);
          assert (on.actions + restOn)[|on.actions|..] == restOn;
          assert (off.actions + restOff)[|off.actions|..] == restOff;
        }
      } else {
        assert Run(env, Cursor(s, true))[0] == on.actions[0];
        assert Run(env, Cursor(s, false))[0] == off.actions[0];
      }
    }
  }

  lemma FlagStep(env: Env, s: ExecutionState)
    requires Uninterrupted(env) && Runnable(s)
    requires s.phase.ToolsPhase? && s.nextTool < |s.pending| && ReadOnly(env, s.pending[s.nextTool])
    ensures var on, off := LoopStep(env, Cursor(s, true)), LoopStep(env, Cursor(s, false));
            && on.actions == off.actions
            && (on.next.Some? <==> off.next.Some?)
            && (on.next.Some? <==> ExecuteTool(env, s.turn, s.nextTool, s.pending[s.nextTool]).Content?)
            && (on.next.Some? ==>
                  var outcome := ExecuteTool(env, s.turn, s.nextTool, s.pending[s.nextTool]);
                  && on.next.value == Cursor(AfterTool(s, s.pending[s.nextTool], outcome.content), true)
                  && off.next.value == Cursor(AfterTool(s, s.pending[s.nextTool], outcome.content), false))
  {
  }

  /** Past its checks, a call is its creation event, if fresh, and then the run from its start. */
  lemma ExecuteIsRun(env: Env, request: RunRequest, checkpoint: Option<ExecutionState>)
    requires Uninterrupted(env) && Accepted(env, request, checkpoint)
    ensures var s := StartState(request, checkpoint);
            var trace := Execute(env, request, checkpoint);
            if checkpoint.Some? then trace == Run(env, Cursor(s, s.phase.ToolsPhase?))
            else trace != [] && trace[0].Emit? && trace[0].checkpoint.None? && trace[1..] == Run(env, Cursor(s, false))
  {
  }

  /**
    Recovery transparency at a boundary: the resumed call is, action by action, the rest of the
    call that made the checkpoint, if and only if its replay reaches no unsafe call.
   */
  lemma ResumeTransparent(env: Env, request: RunRequest, i: nat)
    requires Uninterrupted(env) && Accepted(env, request, None)
    requires i < |Execute(env, request, None)| && Boundary(Execute(env, request, None)[i])
    ensures var trace := Execute(env, request, None);
            var s := trace[i].checkpoint.value;
            && Runnable(s)
            && (Execute(env, request, Some(s)) == trace[ResumeAt(trace, i)..] <==> !ReachesUnsafe(env, s))
  {
    var trace := Execute(env, request, None);
    var s := trace[i].checkpoint.value;
    ExecuteIsRun(env, request, None);
    var c := Cursor(InitialState(request), false);
    var run := Run(env, c);
    assert trace[i] == run[i - 1];
    var recovering := RestIsRun(env, c, i - 1);
    assert trace[ResumeAt(trace, i)..] == run[ResumeAt(run, i - 1)..];
    ExecuteFaithful(env, request, None);
    assert FaithfulAction(request, env.limits, trace[i]);
    ExecuteIsRun(env, request, Some(s));
    FlagMatters(env, s);
    ModelFlagIdle(env, s);
  }

  lemma ModelFlagIdle(env: Env, s: ExecutionState)
    requires Runnable(s)
    ensures s.phase.ModelPhase? ==> Run(env, Cursor(s, true)) == Run(env, Cursor(s, false)) && !ReachesUnsafe(env, s)
  {
  }

  /** A replay that reaches an unsafe call stops there: only read-only tools ran, no model turn, inconclusive. */
  lemma {:induction false} UnsafeReplayStops(env: Env, s: ExecutionState)
    requires Uninterrupted(env) && Runnable(s) && ReachesUnsafe(env, s)
    ensures var trace := Run(env, Cursor(s, true));
            && trace != []
            && trace[|trace| - 1].Emit? && trace[|trace| - 1].event == RunInconclusive
            && (forall a :: a in trace && a.Invoke? ==> a.readOnly && a.state.turn == s.turn)
            && (forall a :: a in trace && a.Emit? ==> a.event != ModelStarted)
    decreases CallsLeft(s)
  {
    var step := LoopStep(env, Cursor(s, true));
    if ReadOnly(env, s.pending[s.nextTool]) {
      FlagStep(env, s);
      LoopStepInvokes(env, Cursor(s, true));
      ToolStepStartsNothing(env, s);
      UnsafeReplayStops(env, step.next.value.state);
    }
  }

  lemma ToolStepStartsNothing(env: Env, s: ExecutionState)
    requires 0 <= s.nextTool < |s.pending|
    ensures forall a :: a in ToolStep(env, s, true).actions && a.Emit? ==> a.event != ModelStarted
  {
  }
}
