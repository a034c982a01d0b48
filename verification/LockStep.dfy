/**
  If each output is persisted before the engine's next step, a call that is not read-only runs at most
  once. The code does not wait like that, and module RunAhead shows what follows.
 */
module LockStep {
  import opened Domain
  import opened Engine
  import opened EngineInvariants
  import opened Store
  import opened Workers
  import opened WorkersInvariant
  import opened WorkersSteps
  import opened WorkersSafety
  import opened Guarantees
  import opened Backlog

  /** The engine only goes on when the worker has dealt with everything it produced. */
  predicate InStep(s: System, step: Label) {
    step.Moving? && step.move.Produce? && step.id in s.tracks && CanMove(s.tracks[step.id], step.move) ==>
      var att := AttemptOf(s.tracks[step.id], step.move.fence);
      att.written == att.produced && att.hand.Idle?
  }

  ghost predicate LockStepped(limits: Limits, states: seq<System>, labels: seq<Label>) {
    && Behaves(limits, states, labels)
    && forall k :: 0 <= k < |labels| ==> InStep(states[k], labels[k])
  }

  /** The request of every tool entered so far is stored. */
  ghost predicate RequestsSaved(saved: seq<Stored>, fence: nat, att: Attempt) {
    && att.produced <= |att.trace|
    && forall i :: 0 <= i < att.produced && att.trace[i].Invoke? ==> 0 < i && SavedAt(saved, fence, i - 1, att.trace[i].state)
  }

  ghost predicate AllRequestsSaved(track: Track) {
    forall n :: 0 <= n < |track.attempts| ==> RequestsSaved(track.saved, n + 1, track.attempts[n])
  }

  lemma RequestsStay(saved: seq<Stored>, saved': seq<Stored>, fence: nat, att: Attempt, att': Attempt)
    requires RequestsSaved(saved, fence, att) && saved <= saved'
    requires att'.produced == att.produced && (att'.trace == att.trace || att.produced == 0)
    ensures RequestsSaved(saved', fence, att')
  {
    forall i | 0 <= i < att'.produced && att'.trace[i].Invoke?
      ensures 0 < i && SavedAt(saved', fence, i - 1, att'.trace[i].state)
    {
      var k :| 0 <= k < |saved| && saved[k].checkpoint.fence == fence && saved[k].index == i - 1
               && saved[k].checkpoint.state == att.trace[i].state;
      assert saved'[k] == saved[k];
    }
  }

  /** Entering a tool in step: its request is behind the worker, so it is stored. */
  lemma ProducedInStep(saved: seq<Stored>, fence: nat, att: Attempt)
    requires RequestsSaved(saved, fence, att) && Backlogged(saved, fence, att) && InvokesInOrder(att.trace)
    requires att.produced < |att.trace| && att.written == att.produced && att.hand.Idle?
    ensures RequestsSaved(saved, fence, Produced(att))
  {
    var action := att.trace[att.produced];
    if action.Invoke? {
      assert RequestedFirst(att.trace, att.produced);
      assert att.trace[att.produced - 1].checkpoint == Some(action.state);
    }
  }

  lemma MoveInStep(entry: Entry, track: Track, move: Move)
    requires AllRequestsSaved(track) && AllBacklogged(track) && CanMove(track, move)
    requires var att := AttemptOf(track, move.fence);
             move.Produce? ==> att.written == att.produced && att.hand.Idle? && InvokesInOrder(att.trace)
    ensures AllRequestsSaved(Moved(entry, track, move).1)
  {
    var track' := Moved(entry, track, move).1;
    forall n | 0 <= n < |track'.attempts|
      ensures RequestsSaved(track'.saved, n + 1, track'.attempts[n])
    {
      assert RequestsSaved(track.saved, n + 1, track.attempts[n]);
      if n == move.fence - 1 && move.Produce? {
        ProducedInStep(track.saved, n + 1, track.attempts[n]);
      } else {
        RequestsStay(track.saved, track'.saved, n + 1, track.attempts[n], track'.attempts[n]);
      }
    }
  }

  ghost predicate Ordered(att: Attempt) {
    InvokesInOrder(att.trace) && (!att.started ==> att.produced == 0)
  }

  ghost predicate AllOrdered(track: Track) {
    forall n :: 0 <= n < |track.attempts| ==> Ordered(track.attempts[n])
  }

  lemma TrackOrdered(limits: Limits, id: string, entry: Entry, track: Track)
    requires TrackOk(limits, id, entry, track)
    ensures AllOrdered(track)
  {
    forall n | 0 <= n < |track.attempts|
      ensures Ordered(track.attempts[n])
    {
      AttemptsApply(limits, id, entry, track, n + 1);
    }
  }

  lemma OrderReached(limits: Limits, states: seq<System>, labels: seq<Label>, k: nat, id: string)
    requires Behaves(limits, states, labels) && k < |states| && id in states[k].tracks
    ensures AllOrdered(states[k].tracks[id])
  {
    ReachedOk(limits, states, labels, k, id);
    TrackOrdered(limits, id, states[k].repo.runs[id], states[k].tracks[id]);
  }

  lemma LoadInStep(entry: Entry, track: Track, fence: nat, trace: seq<Action>)
    requires AllRequestsSaved(track) && AllOrdered(track) && 1 <= fence <= |track.attempts| && !AttemptOf(track, fence).started
    ensures AllRequestsSaved(LoadedTrack(entry, track, fence, trace))
  {
    assert Ordered(track.attempts[fence - 1]);
  }

  lemma StepInStep(limits: Limits, s: System, s': System, step: Label, id: string)
    requires s.tracks.Keys == s.repo.runs.Keys && Next(limits, s, s', step) && InStep(s, step) && id in s'.tracks
    requires id in s.tracks ==> AllRequestsSaved(s.tracks[id]) && AllBacklogged(s.tracks[id]) && AllOrdered(s.tracks[id])
    ensures AllRequestsSaved(s'.tracks[id])
  {
    if id in s.tracks && s'.tracks[id] != s.tracks[id] {
      match step
      case Creating(request, now) => CreationEffect(s.repo, request, now);
      case Leasing(_, _, _, _) =>
      case Loading(_, fence, env) =>
        var request := RequestFrom(AttemptOf(s.tracks[id], fence).lease);
        LoadInStep(s.repo.runs[id], s.tracks[id], fence, Execute(env, request, LoadedState(s.repo.runs[id])));
      case Moving(_, move) =>
        assert Ordered(s.tracks[id].attempts[move.fence - 1]);
        MoveInStep(s.repo.runs[id], s.tracks[id], move);
    }
  }

  lemma {:induction false} AlwaysInStep(limits: Limits, states: seq<System>, labels: seq<Label>, k: nat, id: string)
    requires LockStepped(limits, states, labels) && k < |states| && id in states[k].tracks
    ensures AllRequestsSaved(states[k].tracks[id])
  {
    if k > 0 {
      var s := states[k - 1];
      ReachedKeys(limits, states, labels, k - 1);
      assert Next(limits, s, states[k - 1 + 1], labels[k - 1]) && InStep(s, labels[k - 1]);
      if id in s.tracks {
        AlwaysInStep(limits, states, labels, k - 1, id);
        AlwaysBacklogged(limits, states, labels, k - 1, id);
        OrderReached(limits, states, labels, k - 1, id);
      }
      StepInStep(limits, s, states[k], labels[k - 1], id);
    }
  }

  /** Two attempts never both run writes of one turn. */
  lemma OneAttemptWrites(limits: Limits, states: seq<System>, labels: seq<Label>, k: nat, id: string, f: nat, i: nat, g: nat, j: nat)
    requires LockStepped(limits, states, labels) && k < |states| && id in states[k].tracks
    requires Ran(states[k].tracks[id], f, i) && Ran(states[k].tracks[id], g, j) && f < g
    ensures var track := states[k].tracks[id];
            AttemptOf(track, f).trace[i].state.turn < AttemptOf(track, g).trace[j].state.turn
  {
    var track := states[k].tracks[id];
    var s := AttemptOf(track, f).trace[i].state;
    AlwaysInStep(limits, states, labels, k, id);
    assert RequestsSaved(track.saved, f - 1 + 1, track.attempts[f - 1]);
    var n :| 0 <= n < |track.saved| && track.saved[n].checkpoint.fence == f && track.saved[n].index == i - 1 && track.saved[n].checkpoint.state == s;
    OrderReached(limits, states, labels, k, id);
    assert Ordered(track.attempts[f - 1]);
    assert RequestedFirst(AttemptOf(track, f).trace, i);
    ReachedOk(limits, states, labels, k, id);
    if AttemptOf(track, g).trace[j].state.turn <= s.turn {
      NewerAttemptsReplayReadOnly(limits, id, states[k].repo.runs[id], track, n, g, j);
      assert false;
    }
  }

  /** In lock step no call with side effects runs twice: any two runs of one are of different calls. */
  lemma WritesRunOnce(limits: Limits, states: seq<System>, labels: seq<Label>, k: nat, id: string, f: nat, i: nat, g: nat, j: nat)
    requires LockStepped(limits, states, labels) && k < |states| && id in states[k].tracks
    requires Ran(states[k].tracks[id], f, i) && Ran(states[k].tracks[id], g, j) && (f, i) != (g, j)
    ensures var s, t := AttemptOf(states[k].tracks[id], f).trace[i].state, AttemptOf(states[k].tracks[id], g).trace[j].state;
            (s.turn, s.nextTool) != (t.turn, t.nextTool)
  {
    if f < g {
      OneAttemptWrites(limits, states, labels, k, id, f, i, g, j);
    } else if g < f {
      OneAttemptWrites(limits, states, labels, k, id, g, j, f, i);
    } else {
      OrderReached(limits, states, labels, k, id);
      assert Ordered(states[k].tracks[id].attempts[f - 1]);
    }
  }
}
