/** What a worker may rely on in the trace of one engine call, gathered in one predicate. */
module EngineTrace {
  import opened Domain
  import opened EngineState
  import opened Engine
  import opened EngineInvariants
  import opened Transcript

  /** Every state handed out is faithful, and tools run only within budget. */
  ghost predicate Trustworthy(request: RunRequest, limits: Limits, trace: seq<Action>) {
    forall i :: 0 <= i < |trace| && StateIn(trace[i]).Some? ==> Faithful(request, limits, StateIn(trace[i]).value)
  }

  /** Terminal events are well announced and last; the creation event is first and only in fresh calls. */
  ghost predicate Orderly(trace: seq<Action>, unresumed: bool) {
    && (forall i :: 0 <= i < |trace| ==> Announced(trace[i]))
    && (forall i :: 0 <= i < |trace| - 1 ==> !Terminal(trace[i]))
    && (forall i :: 0 <= i < |trace| && trace[i].Emit? && trace[i].event == RunCreated ==> i == 0 && unresumed)
  }

  /** States go up from the loaded checkpoint; pending calls recovered from it are only replayed if read-only. */
  ghost predicate Progresses(loaded: Option<ExecutionState>, trace: seq<Action>) {
    && (loaded.Some? ==> From(loaded.value, trace))
    && Ascending(trace)
    && InvokesInOrder(trace)
    && (loaded.Some? && loaded.value.phase.ToolsPhase? ==> ReplaysReadOnly(trace, loaded.value.turn))
  }

  ghost predicate FromEngine(request: RunRequest, limits: Limits, loaded: Option<ExecutionState>, trace: seq<Action>) {
    && (loaded.Some? ==> Faithful(request, limits, loaded.value))
    && Trustworthy(request, limits, trace)
    && Orderly(trace, loaded.None?)
    && Progresses(loaded, trace)
  }

  lemma ExecuteFromEngine(env: Env, request: RunRequest, loaded: Option<ExecutionState>)
    requires loaded.Some? ==> Faithful(request, env.limits, loaded.value)
    ensures FromEngine(request, env.limits, loaded, Execute(env, request, loaded))
  {
    var trace := Execute(env, request, loaded);
    ExecuteFaithful(env, request, loaded);
    forall i | 0 <= i < |trace| && StateIn(trace[i]).Some?
      ensures Faithful(request, env.limits, StateIn(trace[i]).value)
    {
      assert FaithfulAction(request, env.limits, trace[i]);
    }
    ExecuteCloses(env, request, loaded);
    ExecuteAscends(env, request, loaded);
    ExecuteInvokes(env, request, loaded);
  }
}
