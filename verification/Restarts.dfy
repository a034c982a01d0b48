/**
  Any number of restarts, each from any checkpoint of the call before, usage records included: the last call
  is a rest of the call that never crashed, with the usage of the turns that were repeated added to its totals.
 */
module Restarts {
  import opened Domain
  import opened EngineState
  import opened Engine
  import opened EngineInvariants
  import opened Transcript
  import opened Recovery
  import opened UsageReplay

  predicate HasCheckpoint(trace: seq<Action>, i: nat) {
    i < |trace| && trace[i].Emit? && trace[i].checkpoint.Some?
  }

  /** The start of the model turn that an action lies in. */
  function TurnStart(trace: seq<Action>, i: nat): (j: nat)
    requires i < |trace|
    ensures j <= i
  {
    if i == 0 || (trace[i].Emit? && trace[i].event == ModelStarted) then i else TurnStart(trace, i - 1)
  }

  /** Where a call goes on that is resumed from the checkpoint at index i: a usage record repeats its turn. */
  function Rewind(trace: seq<Action>, i: nat): (at: nat)
    requires HasCheckpoint(trace, i)
    ensures at <= i + 1
  {
    if trace[i].event == UsageRecorded then TurnStart(trace, i) else ResumeAt(trace, i)
  }

  /** The usage that is counted once more by resuming from this checkpoint. */
  function Respent(a: Action): Usage {
    if a.Emit? && a.event == UsageRecorded && a.payload.UsagePayload? then a.payload.spent else NO_USAGE
  }

  function Unspent(s: ExecutionState, spent: Usage): ExecutionState {
    s.(usage := Usage(s.usage.inputTokens - spent.inputTokens, s.usage.outputTokens - spent.outputTokens,
                      s.usage.costMicros - spent.costMicros))
  }

  /**
    Resuming from this checkpoint shows no difference: its pending calls may be replayed, or, at a usage
    record, no budget verdict of the rest tells whether its usage is counted twice.
   */
  ghost predicate Harmless(env: Env, a: Action) {
    && a.Emit? && a.checkpoint.Some? && Runnable(a.checkpoint.value)
    && if a.event == UsageRecorded then SameVerdicts(env, Cursor(Unspent(a.checkpoint.value, Respent(a)), false), Respent(a))
       else !ReachesUnsafe(env, a.checkpoint.value)
  }

  // Shifts

  lemma ShiftByNothing(trace: seq<Action>)
    ensures Shift(trace, NO_USAGE) == trace
  {
    forall i | 0 <= i < |trace|
      ensures Shift(trace, NO_USAGE)[i] == trace[i]
    {
      ShiftActionByNothing(trace[i]);
    }
  }

  lemma ShiftActionByNothing(a: Action)
    ensures ShiftAction(a, NO_USAGE) == a
  {
  }

  lemma ShiftActionTwice(a: Action, x: Usage, y: Usage)
    ensures ShiftAction(ShiftAction(a, x), y) == ShiftAction(a, Plus(x, y))
  {
  }

  lemma ShiftTwice(trace: seq<Action>, x: Usage, y: Usage)
    ensures Shift(Shift(trace, x), y) == Shift(trace, Plus(x, y))
  {
    forall i | 0 <= i < |trace|
      ensures Shift(Shift(trace, x), y)[i] == Shift(trace, Plus(x, y))[i]
    {
      ShiftActionTwice(trace[i], x, y);
    }
  }

  /** A rest of a rest is a rest, with both usages more. */
  lemma ShiftedRest(whole: seq<Action>, start: nat, extra: Usage, k: nat, more: Usage)
    requires start <= |whole| && k <= |whole| - start
    ensures Shift(Shift(whole[start..], extra)[k..], more) == Shift(whole[start + k..], Plus(extra, more))
  {
    assert Shift(whole[start..], extra)[k..] == Shift(whole[start + k..], extra);
    ShiftTwice(whole[start + k..], extra, more);
  }

  // One restart

  lemma {:induction false} TurnStartIs(trace: seq<Action>, j: nat, i: nat)
    requires j <= i < |trace| && trace[j].Emit? && trace[j].event == ModelStarted
    requires forall k :: j < k <= i && trace[k].Emit? ==> trace[k].event != ModelStarted
    ensures TurnStart(trace, i) == j
  {
    if j < i {
      TurnStartIs(trace, j, i - 1);
    }
  }

  /** Resuming somewhere in a run, at a boundary. */
  lemma RunResumes(env: Env, c: Cursor, i: nat)
    requires Uninterrupted(env) && Runnable(c.state) && i < |Run(env, c)| && Boundary(Run(env, c)[i])
    requires c.recovering ==> !ReachesUnsafe(env, c.state)
    ensures var s := Run(env, c)[i].checkpoint.value;
            && Runnable(s)
            && (Run(env, Cursor(s, s.phase.ToolsPhase?)) == Run(env, c)[ResumeAt(Run(env, c), i)..] <==> !ReachesUnsafe(env, s))
  {
    var recovering := RestIsRun(env, c, i);
    var s := Run(env, c)[i].checkpoint.value;
    FlagMatters(env, s);
    ModelFlagIdle(env, s);
  }

  lemma UnspentShifted(s: ExecutionState, spent: Usage)
    ensures Unspent(ShiftState(s, spent), spent) == s
  {
  }

  /** Resuming somewhere in a run, at a usage record. */
  lemma RunRepeats(env: Env, c: Cursor, i: nat)
    requires Uninterrupted(env) && Runnable(c.state)
    requires i < |Run(env, c)| && Run(env, c)[i].Emit? && Run(env, c)[i].event == UsageRecorded
    ensures Run(env, c)[i].checkpoint.Some?
    ensures var s, spent := Run(env, c)[i].checkpoint.value, Respent(Run(env, c)[i]);
            && Runnable(s) && s.phase.ModelPhase? && Runnable(Unspent(s, spent))
            && (Run(env, Cursor(s, false)) == Shift(Run(env, c)[TurnStart(Run(env, c), i)..], spent)
                <==> SameVerdicts(env, Cursor(Unspent(s, spent), false), spent))
  {
    var j := UsageFollowsStart(env, c, i);
    TurnStartIs(Run(env, c), j, i);
    var recovering := RestIsRun(env, c, j);
    var start, spent := Run(env, c)[j].checkpoint.value, Respent(Run(env, c)[i]);
    ModelFlagIdle(env, start);
    UnspentShifted(start, spent);
    RunShifts(env, Cursor(start, false), spent);
  }

  /** In front of its run a call has its creation event at most. */
  lemma CallIsRun(env: Env, request: RunRequest, checkpoint: Option<ExecutionState>, i: nat) returns (first: nat)
    requires Uninterrupted(env) && HasCheckpoint(Execute(env, request, checkpoint), i)
    ensures Accepted(env, request, checkpoint) && first <= i && first <= 1
    ensures var s := StartState(request, checkpoint);
            Execute(env, request, checkpoint)[first..] == Run(env, Cursor(s, checkpoint.Some? && s.phase.ToolsPhase?))
    ensures first == 1 ==> Execute(env, request, checkpoint)[0].Emit? && Execute(env, request, checkpoint)[0].event == RunCreated
  {
    first := if checkpoint.Some? then 0 else 1;
  }

  lemma {:induction false} TurnStartBehind(trace: seq<Action>, first: nat, i: nat)
    requires first <= i < |trace|
    requires trace[first + TurnStart(trace[first..], i - first)].Emit?
             && trace[first + TurnStart(trace[first..], i - first)].event == ModelStarted
    ensures TurnStart(trace, i) == first + TurnStart(trace[first..], i - first)
  {
    if first < i && !(trace[i].Emit? && trace[i].event == ModelStarted) {
      TurnStartBehind(trace, first, i - 1);
    }
  }

  lemma RewindBehind(env: Env, trace: seq<Action>, first: nat, c: Cursor, i: nat)
    requires Runnable(c.state) && first <= i && HasCheckpoint(trace, i) && trace[first..] == Run(env, c)
    ensures trace[i] == Run(env, c)[i - first]
    ensures Rewind(trace, i) == first + Rewind(Run(env, c), i - first)
    ensures trace[Rewind(trace, i)..] == Run(env, c)[Rewind(Run(env, c), i - first)..]
  {
    assert trace[i] == trace[first..][i - first];
    if trace[i].event == UsageRecorded {
      var j := UsageFollowsStart(env, c, i - first);
      TurnStartIs(Run(env, c), j, i - first);
      assert trace[first + j] == trace[first..][j];
      TurnStartBehind(trace, first, i);
    }
  }

  ghost predicate SafeStart(env: Env, request: RunRequest, checkpoint: Option<ExecutionState>) {
    checkpoint.Some? ==>
      Faithful(request, env.limits, checkpoint.value) && Runnable(checkpoint.value) && !ReachesUnsafe(env, checkpoint.value)
  }

  lemma ResumedRuns(env: Env, request: RunRequest, checkpoint: Option<ExecutionState>, i: nat)
    requires Uninterrupted(env) && SafeStart(env, request, checkpoint) && HasCheckpoint(Execute(env, request, checkpoint), i)
    ensures var s := Execute(env, request, checkpoint)[i].checkpoint.value;
            && Faithful(request, env.limits, s) && Runnable(s)
            && Execute(env, request, Some(s)) == Run(env, Cursor(s, s.phase.ToolsPhase?))
  {
    var _ := CallIsRun(env, request, checkpoint, i);
    ExecuteFaithful(env, request, checkpoint);
    assert FaithfulAction(request, env.limits, Execute(env, request, checkpoint)[i]);
    ExecuteIsRun(env, request, Some(Execute(env, request, checkpoint)[i].checkpoint.value));
  }

  lemma BoundaryHarmless(env: Env, a: Action, rest: seq<Action>, resumed: seq<Action>)
    requires a.Emit? && a.checkpoint.Some? && a.event != UsageRecorded && Runnable(a.checkpoint.value)
    requires resumed == rest <==> !ReachesUnsafe(env, a.checkpoint.value)
    ensures resumed == Shift(rest, Respent(a)) <==> Harmless(env, a)
  {
    ShiftByNothing(rest);
  }

  lemma RestResumes(env: Env, trace: seq<Action>, first: nat, c: Cursor, i: nat, resumed: seq<Action>)
    requires Uninterrupted(env) && Runnable(c.state) && (c.recovering ==> !ReachesUnsafe(env, c.state))
    requires first <= i && HasCheckpoint(trace, i) && trace[first..] == Run(env, c)
    requires var s := trace[i].checkpoint.value; Runnable(s) && resumed == Run(env, Cursor(s, s.phase.ToolsPhase?))
    ensures resumed == Shift(trace[Rewind(trace, i)..], Respent(trace[i])) <==> Harmless(env, trace[i])
  {
    RewindBehind(env, trace, first, c, i);
    if trace[i].event == UsageRecorded {
      UsageResumes(env, c, i - first, trace[i], trace[Rewind(trace, i)..], resumed);
    } else {
      RunResumes(env, c, i - first);
      BoundaryHarmless(env, trace[i], trace[Rewind(trace, i)..], resumed);
    }
  }

  lemma UsageResumes(env: Env, c: Cursor, i: nat, a: Action, rest: seq<Action>, resumed: seq<Action>)
    requires Uninterrupted(env) && Runnable(c.state) && i < |Run(env, c)| && Run(env, c)[i] == a
    requires a.Emit? && a.event == UsageRecorded && a.checkpoint.Some?
    requires var s := a.checkpoint.value; Runnable(s) && resumed == Run(env, Cursor(s, s.phase.ToolsPhase?))
    requires rest == Run(env, c)[TurnStart(Run(env, c), i)..]
    ensures resumed == Shift(rest, Respent(a)) <==> Harmless(env, a)
  {
    RunRepeats(env, c, i);
  }

  lemma UsageInModelPhase(env: Env, trace: seq<Action>, first: nat, c: Cursor, i: nat)
    requires Uninterrupted(env) && Runnable(c.state) && first <= i && HasCheckpoint(trace, i) && trace[first..] == Run(env, c)
    requires Harmless(env, trace[i])
    ensures !ReachesUnsafe(env, trace[i].checkpoint.value)
  {
    if trace[i].event == UsageRecorded {
      assert trace[i] == trace[first..][i - first];
      RunRepeats(env, c, i - first);
    }
  }

  /**
    From any checkpoint of any call, itself resumed or not: the next call is the rest of this one, with the
    usage of the repeated turn more in its totals, if and only if the checkpoint is harmless.
   */
  lemma ResumedCall(env: Env, request: RunRequest, checkpoint: Option<ExecutionState>, i: nat)
    requires Uninterrupted(env) && SafeStart(env, request, checkpoint) && HasCheckpoint(Execute(env, request, checkpoint), i)
    ensures var trace := Execute(env, request, checkpoint);
            Execute(env, request, trace[i].checkpoint) == Shift(trace[Rewind(trace, i)..], Respent(trace[i])) <==> Harmless(env, trace[i])
    ensures Harmless(env, Execute(env, request, checkpoint)[i]) ==> SafeStart(env, request, Execute(env, request, checkpoint)[i].checkpoint)
  {
    var trace, start := Execute(env, request, checkpoint), StartState(request, checkpoint);
    var c := Cursor(start, checkpoint.Some? && start.phase.ToolsPhase?);
    var first := CallIsRun(env, request, checkpoint, i);
    ResumedRuns(env, request, checkpoint, i);
    RestResumes(env, trace, first, c, i, Execute(env, request, trace[i].checkpoint));
    if Harmless(env, trace[i]) {
      UsageInModelPhase(env, trace, first, c, i);
    }
  }

  // Any number of restarts

  /** The checkpoint after crashes: each came while the call behind the ones before had made the action at this index. */
  function Resumed(env: Env, request: RunRequest, history: seq<nat>): Option<ExecutionState> {
    if history == [] then None
    else
      var call := Execute(env, request, Resumed(env, request, history[..|history| - 1]));
      var i := history[|history| - 1];
      if HasCheckpoint(call, i) then call[i].checkpoint else None
  }

  function CallAfter(env: Env, request: RunRequest, history: seq<nat>): seq<Action> {
    Execute(env, request, Resumed(env, request, history))
  }

  /** The k-th crash left the latest checkpoint of its call behind, a harmless one. */
  ghost predicate Crashed(env: Env, request: RunRequest, history: seq<nat>, k: nat)
    requires k < |history|
  {
    var call := CallAfter(env, request, history[..k]);
    HasCheckpoint(call, history[k]) && Harmless(env, call[history[k]])
  }

  ghost predicate Crashes(env: Env, request: RunRequest, history: seq<nat>) {
    forall k :: 0 <= k < |history| ==> Crashed(env, request, history, k)
  }

  lemma CrashesBefore(env: Env, request: RunRequest, history: seq<nat>)
    requires history != [] && Crashes(env, request, history)
    ensures Crashes(env, request, history[..|history| - 1])
    ensures Crashed(env, request, history, |history| - 1)
  {
    var before := history[..|history| - 1];
    forall k | 0 <= k < |before|
      ensures Crashed(env, request, before, k)
    {
      assert Crashed(env, request, history, k);
      assert before[..k] == history[..k];
    }
  }

  lemma CrashesMore(env: Env, request: RunRequest, before: seq<nat>, i: nat)
    requires Crashes(env, request, before)
    requires HasCheckpoint(CallAfter(env, request, before), i) && Harmless(env, CallAfter(env, request, before)[i])
    ensures Crashes(env, request, before + [i])
  {
    var history := before + [i];
    forall k | 0 <= k < |history|
      ensures Crashed(env, request, history, k)
    {
      assert k < |before| ==> Crashed(env, request, before, k);
      assert history[..k] == before[..k];
    }
  }

  /** Where in the uninterrupted call the last call starts, and how much more usage it counts. */
  datatype Place = Place(start: nat, extra: Usage)

  function PlaceOf(env: Env, request: RunRequest, history: seq<nat>): Place {
    if history == [] then Place(0, NO_USAGE)
    else
      var before, i := history[..|history| - 1], history[|history| - 1];
      var call, place := CallAfter(env, request, before), PlaceOf(env, request, before);
      if HasCheckpoint(call, i) then Place(place.start + Rewind(call, i), Plus(place.extra, Respent(call[i]))) else place
  }

  lemma {:induction false} CrashesStartSafely(env: Env, request: RunRequest, history: seq<nat>)
    requires Uninterrupted(env) && Crashes(env, request, history)
    ensures SafeStart(env, request, Resumed(env, request, history))
  {
    if history != [] {
      var before, i := history[..|history| - 1], history[|history| - 1];
      CrashesBefore(env, request, history);
      CrashesStartSafely(env, request, before);
      ResumedCall(env, request, Resumed(env, request, before), i);
    }
  }

  lemma OneMoreCrash(env: Env, request: RunRequest, history: seq<nat>)
    requires history != [] && HasCheckpoint(CallAfter(env, request, history[..|history| - 1]), history[|history| - 1])
    ensures var before, i := history[..|history| - 1], history[|history| - 1];
            var call, place := CallAfter(env, request, before), PlaceOf(env, request, before);
            && CallAfter(env, request, history) == Execute(env, request, call[i].checkpoint)
            && PlaceOf(env, request, history) == Place(place.start + Rewind(call, i), Plus(place.extra, Respent(call[i])))
  {
  }

  lemma RestOfCall(whole: seq<Action>, place: Place, call: seq<Action>, i: nat)
    requires place.start <= |whole| && call == Shift(whole[place.start..], place.extra) && HasCheckpoint(call, i)
    ensures place.start + Rewind(call, i) <= |whole|
    ensures Shift(call[Rewind(call, i)..], Respent(call[i]))
            == Shift(whole[place.start + Rewind(call, i)..], Plus(place.extra, Respent(call[i])))
  {
    ShiftedRest(whole, place.start, place.extra, Rewind(call, i), Respent(call[i]));
  }

  /**
    For any number of crashes, each at any checkpoint: the last call is, action by action, the rest of the call
    that never crashed, with exactly the usage of the repeated turns more in its totals.
   */
  lemma {:induction false} CrashesTransparent(env: Env, request: RunRequest, history: seq<nat>)
    requires Uninterrupted(env) && Crashes(env, request, history)
    ensures var whole, place := Execute(env, request, None), PlaceOf(env, request, history);
            && place.start <= |whole|
            && CallAfter(env, request, history) == Shift(whole[place.start..], place.extra)
  {
    var whole := Execute(env, request, None);
    if history == [] {
      ShiftByNothing(whole);
    } else {
      var before, i := history[..|history| - 1], history[|history| - 1];
      CrashesBefore(env, request, history);
      CrashesTransparent(env, request, before);
      CrashesStartSafely(env, request, before);
      OneMoreCrash(env, request, history);
      ResumedCall(env, request, Resumed(env, request, before), i);
      RestOfCall(whole, PlaceOf(env, request, before), CallAfter(env, request, before), i);
    }
  }

  /** The last crash changed something if and only if its checkpoint was not harmless. */
  lemma LastCrashMatters(env: Env, request: RunRequest, before: seq<nat>, i: nat)
    requires Uninterrupted(env) && Crashes(env, request, before) && HasCheckpoint(CallAfter(env, request, before), i)
    ensures var whole, place := Execute(env, request, None), PlaceOf(env, request, before + [i]);
            && place.start <= |whole|
            && (CallAfter(env, request, before + [i]) == Shift(whole[place.start..], place.extra)
                <==> Harmless(env, CallAfter(env, request, before)[i]))
  {
    var whole := Execute(env, request, None);
    assert (before + [i])[..|before|] == before;
    CrashesTransparent(env, request, before);
    CrashesStartSafely(env, request, before);
    OneMoreCrash(env, request, before + [i]);
    ResumedCall(env, request, Resumed(env, request, before), i);
    RestOfCall(whole, PlaceOf(env, request, before), CallAfter(env, request, before), i);
  }

  predicate EndsWell(trace: seq<Action>) {
    && trace != [] && Terminal(trace[|trace| - 1])
    && trace[|trace| - 1].payload.ResultPayload? && trace[|trace| - 1].checkpoint.None?
  }

  lemma CallEndsWell(env: Env, request: RunRequest, checkpoint: Option<ExecutionState>)
    requires Uninterrupted(env)
    ensures EndsWell(Execute(env, request, checkpoint))
  {
    ExecuteCloses(env, request, checkpoint);
  }

  lemma LastOfRest(whole: seq<Action>, start: nat, extra: Usage, last: seq<Action>)
    requires EndsWell(whole) && EndsWell(last) && start <= |whole| && last == Shift(whole[start..], extra)
    ensures last[|last| - 1] == whole[|whole| - 1]
  {
    assert whole[start..][|whole| - start - 1] == whole[|whole| - 1];
  }

  /** The run ends with the same terminal event and final result, however often it crashed. */
  lemma {:induction false} CrashesKeepResult(env: Env, request: RunRequest, history: seq<nat>)
    requires Uninterrupted(env) && Crashes(env, request, history)
    ensures var whole, last := Execute(env, request, None), CallAfter(env, request, history);
            && whole != [] && last != []
            && Terminal(last[|last| - 1])
            && last[|last| - 1] == whole[|whole| - 1]
  {
    CrashesTransparent(env, request, history);
    CallEndsWell(env, request, None);
    CallEndsWell(env, request, Resumed(env, request, history));
    var place := PlaceOf(env, request, history);
    LastOfRest(Execute(env, request, None), place.start, place.extra, CallAfter(env, request, history));
  }

  // Harmless checkpoints

  lemma {:induction false} ShiftKeepsUnsafe(env: Env, s: ExecutionState, extra: Usage)
    requires Runnable(s)
    ensures ReachesUnsafe(env, ShiftState(s, extra)) == ReachesUnsafe(env, s)
    decreases CallsLeft(s)
  {
    if s.phase.ToolsPhase? && s.nextTool < |s.pending| {
      var call := s.pending[s.nextTool];
      var outcome := ExecuteTool(env, s.turn, s.nextTool, call);
      if ReadOnly(env, call) && outcome.Content? {
        ShiftKeepsUnsafe(env, AfterTool(s, call, outcome.content), extra);
        assert ShiftState(AfterTool(s, call, outcome.content), extra) == AfterTool(ShiftState(s, extra), call, outcome.content);
      }
    }
  }

  predicate Uncapped(limits: Limits) {
    limits.maxInputTokens == limits.maxOutputTokens == limits.maxCostMicros == 0
  }

  /** Without usage limits every checkpoint of a shifted call is harmless whose pending calls may be replayed. */
  lemma UncappedIsHarmless(env: Env, a: Action, extra: Usage)
    requires Uncapped(env.limits) && a.Emit? && a.checkpoint.Some? && Runnable(a.checkpoint.value)
    requires a.event == UsageRecorded || !ReachesUnsafe(env, a.checkpoint.value)
    ensures Harmless(env, ShiftAction(a, extra))
  {
    ShiftKeepsUnsafe(env, a.checkpoint.value, extra);
    if a.event == UsageRecorded {
      var shifted := ShiftAction(a, extra);
      UnlimitedSameVerdicts(env, Cursor(Unspent(shifted.checkpoint.value, Respent(shifted)), false), Respent(shifted));
    }
  }
}
