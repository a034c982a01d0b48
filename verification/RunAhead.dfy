/**
  The engine does not wait for its outputs to be persisted. How far it can get ahead decides whether a call
  with side effects can run twice: exactly if it is among the first seventeen of its turn.
 */
module RunAhead {
  import opened Domain
  import opened EngineState
  import opened Engine
  import opened EngineInvariants
  import opened Store
  import opened Workers
  import opened WorkersSteps
  import opened Guarantees
  import opened Backlog
  import opened TurnCalls
  import opened Schedules
  import opened Examples

  /** With this many calls of its turn before it, a call can be entered before anything of its turn is stored. */
  predicate InReach(position: int) {
    2 * position <= CHANNEL_CAPACITY
  }

  // Calls out of reach run once

  lemma ReachedBacklog(limits: Limits, states: seq<System>, labels: seq<Label>, k: nat, id: string, f: nat)
    requires Behaves(limits, states, labels) && k < |states| && id in states[k].tracks
    requires 1 <= f <= |states[k].tracks[id].attempts|
    ensures Backlogged(states[k].tracks[id].saved, f, AttemptOf(states[k].tracks[id], f))
  {
    AlwaysBacklogged(limits, states, labels, k, id);
    assert Backlogged(states[k].tracks[id].saved, f - 1 + 1, states[k].tracks[id].attempts[f - 1]);
  }

  lemma OutOfReachIsSettled(saved: seq<Stored>, fence: nat, att: Attempt, a: nat, i: nat)
    requires Backlogged(saved, fence, att) && a < i < att.produced && Waiting(att.trace, a, i) > CHANNEL_CAPACITY + 1
    ensures a < Settled(att)
  {
    UnsettledFits(saved, fence, att);
    if Settled(att) <= a {
      WaitingSplits(att.trace, Settled(att), a, att.produced);
      WaitingSplits(att.trace, a, i, att.produced);
    }
  }

  /** Before a call out of reach is entered, a tool-phase checkpoint of its turn is stored under the same fence. */
  lemma OutOfReachIsStored(limits: Limits, states: seq<System>, labels: seq<Label>, k: nat, id: string, f: nat, i: nat) returns (n: nat)
    requires Behaves(limits, states, labels) && k < |states| && id in states[k].tracks && Ran(states[k].tracks[id], f, i)
    requires !InReach(AttemptOf(states[k].tracks[id], f).trace[i].state.nextTool)
    ensures var track := states[k].tracks[id];
            && n < |track.saved| && track.saved[n].checkpoint.fence == f
            && track.saved[n].checkpoint.state.phase.ToolsPhase?
            && track.saved[n].checkpoint.state.turn == AttemptOf(track, f).trace[i].state.turn
  {
    var track := states[k].tracks[id];
    var att := AttemptOf(track, f);
    ReachedBacklog(limits, states, labels, k, id, f);
    var m := StartedBy(limits, states, labels, k, id, f);
    var env := labels[m].env;
    var b, start, result := WriteHasTurn(env, RequestFrom(att.lease), att.loaded, i);
    RequestLeads(env, att.trace, i, b, start, result);
    var a := Request0(env, b, start);
    OutOfReachIsSettled(track.saved, f, att, a, i);
    assert SavedAt(track.saved, f, a, CallsState(start.state, result));
    n :| 0 <= n < |track.saved| && track.saved[n].checkpoint.fence == f && track.saved[n].index == a
         && track.saved[n].checkpoint.state == CallsState(start.state, result);
  }

  /** After a call out of reach no newer attempt ever runs a call with side effects of that turn or an earlier one. */
  lemma OutOfReachEndsTurn(limits: Limits, states: seq<System>, labels: seq<Label>, k: nat, id: string, f: nat, i: nat, g: nat, j: nat)
    requires Behaves(limits, states, labels) && k < |states| && id in states[k].tracks && f < g
    requires Ran(states[k].tracks[id], f, i) && Ran(states[k].tracks[id], g, j)
    requires !InReach(AttemptOf(states[k].tracks[id], f).trace[i].state.nextTool)
    ensures AttemptOf(states[k].tracks[id], f).trace[i].state.turn < AttemptOf(states[k].tracks[id], g).trace[j].state.turn
  {
    var track := states[k].tracks[id];
    var n := OutOfReachIsStored(limits, states, labels, k, id, f, i);
    ReachedOk(limits, states, labels, k, id);
    if AttemptOf(track, g).trace[j].state.turn <= AttemptOf(track, f).trace[i].state.turn {
      NewerAttemptsReplayReadOnly(limits, id, states[k].repo.runs[id], track, n, g, j);
      assert false;
    }
  }

  lemma InvokesOnce(limits: Limits, states: seq<System>, labels: seq<Label>, k: nat, id: string, f: nat)
    requires Behaves(limits, states, labels) && k < |states| && id in states[k].tracks
    requires 1 <= f <= |states[k].tracks[id].attempts|
    ensures InvokesInOrder(AttemptOf(states[k].tracks[id], f).trace)
  {
    ReachedOk(limits, states, labels, k, id);
    AttemptsApply(limits, id, states[k].repo.runs[id], states[k].tracks[id], f);
  }

  /** In every reachable state: what ran twice is in reach, whatever the attempts' models and tools answered. */
  lemma TwiceIsInReach(limits: Limits, states: seq<System>, labels: seq<Label>, k: nat, id: string, f: nat, i: nat, g: nat, j: nat)
    requires Behaves(limits, states, labels) && k < |states| && id in states[k].tracks
    requires Ran(states[k].tracks[id], f, i) && Ran(states[k].tracks[id], g, j) && (f, i) != (g, j)
    requires var s, t := AttemptOf(states[k].tracks[id], f).trace[i].state, AttemptOf(states[k].tracks[id], g).trace[j].state;
             (s.turn, s.nextTool) == (t.turn, t.nextTool)
    ensures InReach(AttemptOf(states[k].tracks[id], f).trace[i].state.nextTool)
  {
    if !InReach(AttemptOf(states[k].tracks[id], f).trace[i].state.nextTool) {
      if f < g {
        OutOfReachEndsTurn(limits, states, labels, k, id, f, i, g, j);
      } else if g < f {
        OutOfReachEndsTurn(limits, states, labels, k, id, g, j, f, i);
      } else {
        InvokesOnce(limits, states, labels, k, id, f);
      }
      assert false;
    }
  }

  // Calls in reach can run twice

  /** The first attempt stores everything before its turn's first request, keeps that in its hands, and runs ahead. */
  lemma FirstAttempt(env: Env, request: RunRequest, trace: seq<Action>, a: nat, i: nat)
    returns (states: seq<System>, labels: seq<Label>)
    requires trace == Execute(env, request, None) && a < i < |trace| && Logs(trace[a])
    requires forall n :: 0 <= n < i && trace[n].Emit? ==> !TerminalEvent(trace[n].event)
    requires Waiting(trace, a + 1, i + 1) <= CHANNEL_CAPACITY
    ensures Behaves(env.limits, states, labels)
    ensures var s, id := states[|labels|], request.runId;
            && At(s, id, request.deadline - 2, trace, a, i + 1, Writing)
            && |s.tracks[id].attempts| == 1
            && LoadedState(s.repo.runs[id]) == LastSaved(trace, a, None)
            && RequestFrom(s.repo.runs[id].record) == request && s.repo.runs[id].record.leaseUntil == request.deadline - 1
  {
    states, labels := KeepsUp(env, request, trace, a);
    states, labels := HoldsOn(env.limits, states, labels, request.runId, request.deadline - 2, trace, a, i);
  }

  lemma HoldsOn(limits: Limits, states: seq<System>, labels: seq<Label>, id: string, now: Time, trace: seq<Action>, a: nat, i: nat)
    returns (states': seq<System>, labels': seq<Label>)
    requires Behaves(limits, states, labels) && At(states[|labels|], id, now, trace, a, a, Idle)
    requires a < i < |trace| && Logs(trace[a]) && Waiting(trace, a + 1, i + 1) <= CHANNEL_CAPACITY
    ensures Behaves(limits, states', labels') && At(states'[|labels'|], id, now, trace, a, i + 1, Writing)
    ensures KeptIn(states[|labels|], states'[|labels'|], id) && states'[|labels'|].repo.runs[id] == states[|labels|].repo.runs[id]
  {
    states', labels' := GoesProducing(limits, states, labels, id, now, trace, a, a, Idle);
    states', labels' := GoesTaking(limits, states', labels', id, now, trace, a, a + 1);
    states', labels' := RunsAhead(limits, states', labels', id, now, trace, a, i + 1);
  }

  lemma RoomFor(trace: seq<Action>, a: nat, i: nat, position: int)
    requires a < i < |trace| && trace[a].Emit? && trace[i].Invoke?
    requires Waiting(trace, a, i) == 2 * position + 1 && InReach(position)
    ensures Waiting(trace, a + 1, i + 1) <= CHANNEL_CAPACITY
  {
    WaitingFrom(trace, a, i);
  }

  lemma RequestInReach(env: Env, trace: seq<Action>, i: nat, b: nat, m: Cursor, result: TurnResult) returns (a: nat)
    requires TurnOf(env, trace, i, b, m, result) && InReach(trace[i].state.nextTool)
    ensures a < i && Logs(trace[a]) && LastSaved(trace, a, None) == Some(Record(m.state, result))
    ensures Waiting(trace, a + 1, i + 1) <= CHANNEL_CAPACITY
  {
    a := Request0(env, b, m);
    RequestLeads(env, trace, i, b, m, result);
    SavedBeforeCalls(env, trace, i, b, m, result, None);
    RoomFor(trace, a, i, trace[i].state.nextTool);
  }

  /** The first attempt did this engine call and made its i-th action; the second has made the same action as its j-th. */
  ghost predicate RanTwice(env: Env, request: RunRequest, i: nat, states: seq<System>, labels: seq<Label>, j: nat)
    requires i < |Execute(env, request, None)|
  {
    && Behaves(env.limits, states, labels)
    && var s, id := states[|labels|], request.runId;
    && id in s.tracks && Ran(s.tracks[id], 1, i) && Ran(s.tracks[id], 2, j)
    && AttemptOf(s.tracks[id], 1).trace == Execute(env, request, None)
    && AttemptOf(s.tracks[id], 2).trace[j] == Execute(env, request, None)[i]
  }

  /**
    Whatever call with side effects a fresh engine call makes, in any turn and behind any amount of output: if
    it is in reach there is a run of the system in which a second attempt makes it again.
   */
  lemma WriteMayRunTwice(env: Env, request: RunRequest, i: nat) returns (states: seq<System>, labels: seq<Label>, j: nat)
    requires i < |Execute(env, request, None)|
    requires Execute(env, request, None)[i].Invoke? && !Execute(env, request, None)[i].readOnly
    requires InReach(Execute(env, request, None)[i].state.nextTool)
    ensures RanTwice(env, request, i, states, labels, j)
  {
    var b, m, result := WriteHasTurn(env, request, None, i);
    j := AskedAgain(env, request, i, b, m, result);
    var a := RequestInReach(env, Execute(env, request, None), i, b, m, result);
    states, labels := BothAttempts(env, request, Execute(env, request, None), a, i, Record(m.state, result), j);
  }

  lemma BothAttempts(env: Env, request: RunRequest, trace: seq<Action>, a: nat, i: nat, s: ExecutionState, j: nat)
    returns (states: seq<System>, labels: seq<Label>)
    requires trace == Execute(env, request, None) && a < i < |trace| && Logs(trace[a])
    requires Waiting(trace, a + 1, i + 1) <= CHANNEL_CAPACITY && LastSaved(trace, a, None) == Some(s)
    requires trace[i].Invoke? && !trace[i].readOnly
    requires j < |Execute(Quiet(env), request, Some(s))| && Execute(Quiet(env), request, Some(s))[j] == trace[i]
    ensures RanTwice(env, request, i, states, labels, j)
  {
    NoTerminalBefore(env, request, None, i);
    NoTerminalBefore(Quiet(env), request, Some(s), j);
    states, labels := FirstAttempt(env, request, trace, a, i);
    states, labels := SecondAttempt(env.limits, states, labels, request.runId, request.deadline - 1, trace, i,
                                    Quiet(env), Execute(Quiet(env), request, Some(s)), j);
  }

  /** Another worker takes the run up, and its attempt keeps up until it makes the call. */
  lemma SecondAttempt(limits: Limits, states: seq<System>, labels: seq<Label>, id: string, now: Time, trace: seq<Action>, i: nat,
                      env: Env, again: seq<Action>, j: nat)
    returns (states': seq<System>, labels': seq<Label>)
    requires Behaves(limits, states, labels) && env.limits == limits
    requires var s := states[|labels|];
             && s.repo.runs.Keys == {id} && id in s.tracks && |s.tracks[id].attempts| == 1
             && Leasable(s.repo.runs[id].record, now)
             && AttemptOf(s.tracks[id], 1).trace == trace && AttemptOf(s.tracks[id], 1).produced == i + 1 <= |trace|
             && again == Execute(env, RequestFrom(s.repo.runs[id].record), LoadedState(s.repo.runs[id]))
    requires j < |again| && forall n :: 0 <= n < j && again[n].Emit? ==> !TerminalEvent(again[n].event)
    requires again[j].Invoke?
    ensures Behaves(limits, states', labels')
    ensures var s := states'[|labels'|];
            && id in s.tracks && |s.tracks[id].attempts| == 2
            && AttemptOf(s.tracks[id], 1).trace == trace && AttemptOf(s.tracks[id], 1).produced == i + 1
            && AttemptOf(s.tracks[id], 2).trace == again && AttemptOf(s.tracks[id], 2).produced == j + 1
  {
    states', labels' := TakesUp(limits, states, labels, id, "second", now, env);
    assert AttemptOf(states'[|labels'|].tracks[id], 1) == states'[|labels'|].tracks[id].attempts[..1][0];
    var first := AttemptOf(states'[|labels'|].tracks[id], 1);
    states', labels' := DealsUpTo(limits, states', labels', id, now, again, j);
    assert AttemptOf(states'[|labels'|].tracks[id], 1) == states'[|labels'|].tracks[id].attempts[..1][0];
    states', labels' := GoesProducing(limits, states', labels', id, now, again, j, j, Idle);
    assert AttemptOf(states'[|labels'|].tracks[id], 1) == states'[|labels'|].tracks[id].attempts[..1][0];
  }

  /** Exactly the calls in reach can run twice. */
  lemma RepeatableIffInReach(env: Env, request: RunRequest, i: nat)
    requires i < |Execute(env, request, None)|
    requires Execute(env, request, None)[i].Invoke? && !Execute(env, request, None)[i].readOnly
    ensures (exists states, labels, j :: RanTwice(env, request, i, states, labels, j))
            <==> InReach(Execute(env, request, None)[i].state.nextTool)
  {
    if InReach(Execute(env, request, None)[i].state.nextTool) {
      var states, labels, j := WriteMayRunTwice(env, request, i);
    } else {
      forall states, labels, j | RanTwice(env, request, i, states, labels, j)
        ensures false
      {
        TwiceIsInReach(env.limits, states, labels, |labels|, request.runId, 1, i, 2, j);
      }
    }
  }

  /** So writes are not run at most once: here is a call that runs twice. */
  lemma AWriteRunsTwice() returns (states: seq<System>, labels: seq<Label>, j: nat)
    ensures 3 < |Execute(WritingEnv(), REQUEST, None)| && RanTwice(WritingEnv(), REQUEST, 3, states, labels, j)
  {
    WriteComesFourth();
    states, labels, j := WriteMayRunTwice(WritingEnv(), REQUEST, 3);
  }
}
