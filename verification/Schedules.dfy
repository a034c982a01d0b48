/**
  Runs of the system put together step by step: a worker that persists each output as it comes, and an engine
  that runs ahead of its worker.
 */
module Schedules {
  import opened Domain
  import opened EngineState
  import opened Engine
  import opened EngineInvariants
  import opened Store
  import opened Workers
  import opened WorkersCheckpoints
  import opened Guarantees
  import opened TurnCalls

  lemma Extend(limits: Limits, states: seq<System>, labels: seq<Label>, s: System, step: Label)
    requires Behaves(limits, states, labels) && Next(limits, states[|labels|], s, step)
    ensures Behaves(limits, states + [s], labels + [step])
  {
    var states', labels' := states + [s], labels + [step];
    forall k | 0 <= k < |labels'|
      ensures Next(limits, states'[k], states'[k + 1], labels'[k])
    {
      assert k < |labels| ==> states'[k + 1] == states[k + 1];
    }
  }

  lemma Creation(limits: Limits, request: RunRequest, now: Time) returns (states: seq<System>, labels: seq<Label>)
    ensures Behaves(limits, states, labels)
    ensures var s, id := states[|labels|], request.runId;
            s.repo.runs == map[id := NewEntry(request, now)] && s.tracks == map[id := NEW_TRACK]
  {
    var empty := System(EMPTY_REPO, map[]);
    var made := System(CreateRun(EMPTY_REPO, request, now).0, map[request.runId := NEW_TRACK]);
    Extend(limits, [empty], [], made, Creating(request, now));
    states, labels := [empty] + [made], [] + [Creating(request, now)];
  }

  // One attempt at work

  /** The current attempt holds its lease at this time, has come this far, and has this in its hands. */
  predicate Works(entry: Entry, track: Track, id: string, now: Time, trace: seq<Action>, written: nat, produced: nat, hand: Hand) {
    && 1 <= |track.attempts|
    && var att := AttemptOf(track, |track.attempts|);
    && att.started && att.engineUp && att.lease.id == id && att.trace == trace
    && att.written == written <= att.produced == produced <= |trace| && att.hand == hand
    && Holds(entry.record, att.lease.leaseOwner, |track.attempts|, now)
  }

  /** The older attempts are as they were, and so is the lease. */
  predicate Kept(entry: Entry, track: Track, entry': Entry, track': Track) {
    && |track'.attempts| == |track.attempts| >= 1
    && track'.attempts[..|track.attempts| - 1] == track.attempts[..|track.attempts| - 1]
    && RequestFrom(entry'.record) == RequestFrom(entry.record)
    && entry'.record.leaseUntil == entry.record.leaseUntil
  }

  lemma ProduceWorks(entry: Entry, track: Track, id: string, now: Time, trace: seq<Action>, written: nat, produced: nat, hand: Hand)
    requires Works(entry, track, id, now, trace, written, produced, hand) && produced < |trace|
    requires trace[produced].Emit? ==> InChannel(AttemptOf(track, |track.attempts|)) < CHANNEL_CAPACITY
    ensures var move := Produce(|track.attempts|);
            && CanMove(track, move) && Moved(entry, track, move).0 == entry
            && Works(entry, Moved(entry, track, move).1, id, now, trace, written, produced + 1, hand)
            && Kept(entry, track, entry, Moved(entry, track, move).1)
  {
  }

  lemma TakeWorks(entry: Entry, track: Track, id: string, now: Time, trace: seq<Action>, written: nat, produced: nat)
    requires Works(entry, track, id, now, trace, written, produced, Idle) && written < produced
    ensures var move := Take(|track.attempts|);
            && CanMove(track, move) && Moved(entry, track, move).0 == entry
            && (if Logs(trace[written]) then Works(entry, Moved(entry, track, move).1, id, now, trace, written, produced, Writing)
                else Works(entry, Moved(entry, track, move).1, id, now, trace, written + 1, produced, Idle))
            && Kept(entry, track, entry, Moved(entry, track, move).1)
  {
  }

  function HandAfter(action: Action, sequence: nat): Hand
    requires action.Emit?
  {
    if action.checkpoint.Some? then Saving(action.checkpoint.value, sequence) else Idle
  }

  lemma WriteWorks(entry: Entry, track: Track, id: string, now: Time, trace: seq<Action>, written: nat, produced: nat)
    requires Works(entry, track, id, now, trace, written, produced, Writing) && written < produced
    requires trace[written].Emit? && !TerminalEvent(trace[written].event)
    ensures var move := Write(|track.attempts|, now);
            && CanMove(track, move)
            && var (entry', track') := Moved(entry, track, move);
            && entry' == Appended(entry, trace[written].event, trace[written].payload, now)
            && Works(entry', track', id, now, trace, written + 1, produced, HandAfter(trace[written], entry'.record.lastEventSeq))
            && Kept(entry, track, entry', track')
  {
  }

  lemma SaveWorks(entry: Entry, track: Track, id: string, now: Time, trace: seq<Action>, written: nat, produced: nat, hand: Hand)
    requires Works(entry, track, id, now, trace, written, produced, hand) && hand.Saving? && 0 < written
    requires SaveError(entry, CheckpointIn(AttemptOf(track, |track.attempts|), |track.attempts|, now)).None?
    ensures var move := Move.Save(|track.attempts|, now);
            && CanMove(track, move)
            && var (entry', track') := Moved(entry, track, move);
            && LoadedState(entry') == Some(hand.state) && entry'.log == entry.log
            && Works(entry', track', id, now, trace, written, produced, Idle)
            && Kept(entry, track, entry', track')
  {
  }

  // The system with this attempt in it

  predicate At(s: System, id: string, now: Time, trace: seq<Action>, written: nat, produced: nat, hand: Hand) {
    && s.repo.runs.Keys == {id} && id in s.tracks
    && Works(s.repo.runs[id], s.tracks[id], id, now, trace, written, produced, hand)
  }

  predicate KeptIn(s: System, s': System, id: string) {
    && id in s.repo.runs && id in s.tracks && id in s'.repo.runs && id in s'.tracks
    && Kept(s.repo.runs[id], s.tracks[id], s'.repo.runs[id], s'.tracks[id])
  }

  /** A move of an attempt as the next step. */
  lemma Goes(limits: Limits, states: seq<System>, labels: seq<Label>, id: string, move: Move)
    returns (states': seq<System>, labels': seq<Label>)
    requires Behaves(limits, states, labels) && id in states[|labels|].repo.runs && id in states[|labels|].tracks
    requires CanMove(states[|labels|].tracks[id], move)
    ensures Behaves(limits, states', labels') && states <= states'
    ensures var s, s' := states[|labels|], states'[|labels'|];
            && s'.repo.runs == s.repo.runs[id := Moved(s.repo.runs[id], s.tracks[id], move).0]
            && s'.tracks == s.tracks[id := Moved(s.repo.runs[id], s.tracks[id], move).1]
  {
    var s := states[|labels|];
    var (entry, track) := Moved(s.repo.runs[id], s.tracks[id], move);
    var s' := System(s.repo.(runs := s.repo.runs[id := entry]), s.tracks[id := track]);
    Extend(limits, states, labels, s', Moving(id, move));
    states', labels' := states + [s'], labels + [Moving(id, move)];
  }

  lemma GoesProducing(limits: Limits, states: seq<System>, labels: seq<Label>, id: string, now: Time, trace: seq<Action>,
                      written: nat, produced: nat, hand: Hand)
    returns (states': seq<System>, labels': seq<Label>)
    requires Behaves(limits, states, labels) && At(states[|labels|], id, now, trace, written, produced, hand)
    requires produced < |trace|
    requires var track := states[|labels|].tracks[id];
             trace[produced].Emit? ==> InChannel(AttemptOf(track, |track.attempts|)) < CHANNEL_CAPACITY
    ensures Behaves(limits, states', labels') && states <= states'
    ensures At(states'[|labels'|], id, now, trace, written, produced + 1, hand) && KeptIn(states[|labels|], states'[|labels'|], id)
    ensures states'[|labels'|].repo.runs[id] == states[|labels|].repo.runs[id]
  {
    var s := states[|labels|];
    ProduceWorks(s.repo.runs[id], s.tracks[id], id, now, trace, written, produced, hand);
    states', labels' := Goes(limits, states, labels, id, Produce(|s.tracks[id].attempts|));
  }

  lemma GoesTaking(limits: Limits, states: seq<System>, labels: seq<Label>, id: string, now: Time, trace: seq<Action>,
                   written: nat, produced: nat)
    returns (states': seq<System>, labels': seq<Label>)
    requires Behaves(limits, states, labels) && At(states[|labels|], id, now, trace, written, produced, Idle)
    requires written < produced
    ensures Behaves(limits, states', labels') && states <= states' && KeptIn(states[|labels|], states'[|labels'|], id)
    ensures if Logs(trace[written]) then At(states'[|labels'|], id, now, trace, written, produced, Writing)
            else At(states'[|labels'|], id, now, trace, written + 1, produced, Idle)
    ensures states'[|labels'|].repo.runs[id] == states[|labels|].repo.runs[id]
  {
    var s := states[|labels|];
    TakeWorks(s.repo.runs[id], s.tracks[id], id, now, trace, written, produced);
    states', labels' := Goes(limits, states, labels, id, Take(|s.tracks[id].attempts|));
  }

  lemma GoesWriting(limits: Limits, states: seq<System>, labels: seq<Label>, id: string, now: Time, trace: seq<Action>,
                    written: nat, produced: nat)
    returns (states': seq<System>, labels': seq<Label>)
    requires Behaves(limits, states, labels) && At(states[|labels|], id, now, trace, written, produced, Writing)
    requires written < produced && trace[written].Emit? && !TerminalEvent(trace[written].event)
    ensures Behaves(limits, states', labels') && states <= states' && KeptIn(states[|labels|], states'[|labels'|], id)
    ensures var entry' := states'[|labels'|].repo.runs[id];
            && At(states'[|labels'|], id, now, trace, written + 1, produced, HandAfter(trace[written], entry'.record.lastEventSeq))
            && entry' == Appended(states[|labels|].repo.runs[id], trace[written].event, trace[written].payload, now)
  {
    var s := states[|labels|];
    WriteWorks(s.repo.runs[id], s.tracks[id], id, now, trace, written, produced);
    states', labels' := Goes(limits, states, labels, id, Write(|s.tracks[id].attempts|, now));
  }

  lemma GoesSaving(limits: Limits, states: seq<System>, labels: seq<Label>, id: string, now: Time, trace: seq<Action>,
                   written: nat, produced: nat, hand: Hand)
    returns (states': seq<System>, labels': seq<Label>)
    requires Behaves(limits, states, labels) && At(states[|labels|], id, now, trace, written, produced, hand)
    requires hand.Saving? && 0 < written
    ensures Behaves(limits, states', labels') && states <= states' && KeptIn(states[|labels|], states'[|labels'|], id)
    ensures At(states'[|labels'|], id, now, trace, written, produced, Idle)
    ensures LoadedState(states'[|labels'|].repo.runs[id]) == Some(hand.state)
    ensures states'[|labels'|].repo.runs[id].log == states[|labels|].repo.runs[id].log
  {
    var s := states[|labels|];
    NotRefused(limits, states, labels, id, now, trace, written, produced, hand);
    SaveWorks(s.repo.runs[id], s.tracks[id], id, now, trace, written, produced, hand);
    states', labels' := Goes(limits, states, labels, id, Move.Save(|s.tracks[id].attempts|, now));
  }

  lemma NotRefused(limits: Limits, states: seq<System>, labels: seq<Label>, id: string, now: Time, trace: seq<Action>,
                   written: nat, produced: nat, hand: Hand)
    requires Behaves(limits, states, labels) && At(states[|labels|], id, now, trace, written, produced, hand)
    requires hand.Saving? && 0 < written
    ensures var entry, track := states[|labels|].repo.runs[id], states[|labels|].tracks[id];
            SaveError(entry, CheckpointIn(AttemptOf(track, |track.attempts|), |track.attempts|, now)).None?
  {
    var entry, track := states[|labels|].repo.runs[id], states[|labels|].tracks[id];
    ReachedOk(limits, states, labels, |labels|, id);
    SaveNotRefused(limits, id, entry, track, |track.attempts|, now);
  }

  /** The engine makes one action and the worker deals with it. */
  lemma DealsNext(limits: Limits, states: seq<System>, labels: seq<Label>, id: string, now: Time, trace: seq<Action>, n: nat)
    returns (states': seq<System>, labels': seq<Label>)
    requires Behaves(limits, states, labels) && At(states[|labels|], id, now, trace, n, n, Idle)
    requires n < |trace| && (trace[n].Emit? ==> !TerminalEvent(trace[n].event))
    ensures Behaves(limits, states', labels') && states <= states' && KeptIn(states[|labels|], states'[|labels'|], id)
    ensures At(states'[|labels'|], id, now, trace, n + 1, n + 1, Idle)
    ensures LoadedState(states'[|labels'|].repo.runs[id]) ==
            if Logs(trace[n]) && trace[n].checkpoint.Some? then trace[n].checkpoint else LoadedState(states[|labels|].repo.runs[id])
  {
    states', labels' := GoesProducing(limits, states, labels, id, now, trace, n, n, Idle);
    states', labels' := GoesTaking(limits, states', labels', id, now, trace, n, n + 1);
    if Logs(trace[n]) {
      states', labels' := GoesWriting(limits, states', labels', id, now, trace, n, n + 1);
      if trace[n].checkpoint.Some? {
        var hand := HandAfter(trace[n], states'[|labels'|].repo.runs[id].record.lastEventSeq);
        states', labels' := GoesSaving(limits, states', labels', id, now, trace, n + 1, n + 1, hand);
      }
    }
  }

  /** A worker that keeps up with its engine stores checkpoint after checkpoint. */
  lemma {:induction false} DealsUpTo(limits: Limits, states: seq<System>, labels: seq<Label>, id: string, now: Time, trace: seq<Action>, n: nat)
    returns (states': seq<System>, labels': seq<Label>)
    requires Behaves(limits, states, labels) && At(states[|labels|], id, now, trace, 0, 0, Idle)
    requires n <= |trace| && forall i :: 0 <= i < n && trace[i].Emit? ==> !TerminalEvent(trace[i].event)
    ensures Behaves(limits, states', labels') && states <= states' && KeptIn(states[|labels|], states'[|labels'|], id)
    ensures At(states'[|labels'|], id, now, trace, n, n, Idle)
    ensures LoadedState(states'[|labels'|].repo.runs[id]) == LastSaved(trace, n, LoadedState(states[|labels|].repo.runs[id]))
  {
    states', labels' := states, labels;
    if n > 0 {
      states', labels' := DealsUpTo(limits, states, labels, id, now, trace, n - 1);
      states', labels' := DealsNext(limits, states', labels', id, now, trace, n - 1);
    }
  }

  /** The engine runs ahead as far as the channel holds its outputs. */
  lemma {:induction false} RunsAhead(limits: Limits, states: seq<System>, labels: seq<Label>, id: string, now: Time, trace: seq<Action>,
                                     written: nat, n: nat)
    returns (states': seq<System>, labels': seq<Label>)
    requires Behaves(limits, states, labels) && At(states[|labels|], id, now, trace, written, written + 1, Writing)
    requires written + 1 <= n <= |trace| && Waiting(trace, written + 1, n) <= CHANNEL_CAPACITY
    ensures Behaves(limits, states', labels') && states <= states' && KeptIn(states[|labels|], states'[|labels'|], id)
    ensures At(states'[|labels'|], id, now, trace, written, n, Writing)
    ensures states'[|labels'|].repo.runs[id] == states[|labels|].repo.runs[id]
  {
    states', labels' := states, labels;
    if n > written + 1 {
      states', labels' := RunsAhead(limits, states, labels, id, now, trace, written, n - 1);
      states', labels' := GoesProducing(limits, states', labels', id, now, trace, written, n - 1, Writing);
    }
  }

  // Taking a run up

  lemma LeasesNext(limits: Limits, states: seq<System>, labels: seq<Label>, id: string, worker: string, now: Time)
    returns (states': seq<System>, labels': seq<Label>)
    requires Behaves(limits, states, labels) && worker != ""
    requires var s := states[|labels|]; s.repo.runs.Keys == {id} && id in s.tracks && Leasable(s.repo.runs[id].record, now)
    ensures Behaves(limits, states', labels') && states <= states'
    ensures var s, s' := states[|labels|], states'[|labels'|];
            && s'.repo.runs == s.repo.runs[id := Leased(s.repo.runs[id], worker, now, 1)]
            && s'.tracks == s.tracks[id := LeasedTrack(s.tracks[id], s'.repo.runs[id].record)]
  {
    var s := states[|labels|];
    var entry := Leased(s.repo.runs[id], worker, now, 1);
    var s' := System(s.repo.(runs := s.repo.runs[id := entry]), s.tracks[id := LeasedTrack(s.tracks[id], entry.record)]);
    Extend(limits, states, labels, s', Leasing(id, worker, now, 1));
    states', labels' := states + [s'], labels + [Leasing(id, worker, now, 1)];
  }

  /** The only run is leased for one moment, and the attempt starts from the stored checkpoint. */
  lemma TakesUp(limits: Limits, states: seq<System>, labels: seq<Label>, id: string, worker: string, now: Time, env: Env)
    returns (states': seq<System>, labels': seq<Label>)
    requires Behaves(limits, states, labels) && worker != "" && env.limits == limits
    requires var s := states[|labels|]; s.repo.runs.Keys == {id} && id in s.tracks && Leasable(s.repo.runs[id].record, now)
    ensures Behaves(limits, states', labels') && states <= states'
    ensures var s, s' := states[|labels|], states'[|labels'|];
            var entry := s.repo.runs[id];
            && At(s', id, now, Execute(env, RequestFrom(entry.record), LoadedState(entry)), 0, 0, Idle)
            && |s'.tracks[id].attempts| == |s.tracks[id].attempts| + 1
            && s'.tracks[id].attempts[..|s.tracks[id].attempts|] == s.tracks[id].attempts
            && s'.repo.runs[id] == Leased(entry, worker, now, 1)
  {
    var entry := states[|labels|].repo.runs[id];
    ReachedOk(limits, states, labels, |labels|, id);
    var mid, steps := LeasesNext(limits, states, labels, id, worker, now);
    var s, f := mid[|steps|], |mid[|steps|].tracks[id].attempts|;
    var trace := Execute(env, RequestFrom(entry.record), LoadedState(entry));
    var s' := s.(tracks := s.tracks[id := LoadedTrack(s.repo.runs[id], s.tracks[id], f, trace)]);
    Extend(limits, mid, steps, s', Loading(id, f, env));
    states', labels' := mid + [s'], steps + [Loading(id, f, env)];
  }

  lemma NoTerminalBefore(env: Env, request: RunRequest, checkpoint: Option<ExecutionState>, n: nat)
    requires n < |Execute(env, request, checkpoint)|
    ensures forall i :: 0 <= i < n && Execute(env, request, checkpoint)[i].Emit? ==> !TerminalEvent(Execute(env, request, checkpoint)[i].event)
  {
    ExecuteCloses(env, request, checkpoint);
    forall i | 0 <= i < n && Execute(env, request, checkpoint)[i].Emit?
      ensures !TerminalEvent(Execute(env, request, checkpoint)[i].event)
    {
      assert !Terminal(Execute(env, request, checkpoint)[i]);
    }
  }

  /** A run is created and taken up, and its first attempt persists everything before this action. */
  lemma KeepsUp(env: Env, request: RunRequest, trace: seq<Action>, a: nat) returns (states: seq<System>, labels: seq<Label>)
    requires trace == Execute(env, request, None) && a < |trace|
    requires forall n :: 0 <= n < a && trace[n].Emit? ==> !TerminalEvent(trace[n].event)
    ensures Behaves(env.limits, states, labels)
    ensures var s, id := states[|labels|], request.runId;
            && At(s, id, request.deadline - 2, trace, a, a, Idle)
            && |s.tracks[id].attempts| == 1
            && LoadedState(s.repo.runs[id]) == LastSaved(trace, a, None)
            && RequestFrom(s.repo.runs[id].record) == request && s.repo.runs[id].record.leaseUntil == request.deadline - 1
  {
    var id, now := request.runId, request.deadline - 2;
    states, labels := Creation(env.limits, request, now);
    states, labels := TakesUp(env.limits, states, labels, id, "first", now, env);
    states, labels := DealsUpTo(env.limits, states, labels, id, now, trace, a);
  }

  lemma FinishWorks(entry: Entry, track: Track, id: string, now: Time, trace: seq<Action>, written: nat, produced: nat)
    requires Works(entry, track, id, now, trace, written, produced, Writing) && written < produced
    requires Terminal(trace[written]) && Announced(trace[written])
    ensures var move, action := Write(|track.attempts|, now), trace[written];
            && CanMove(track, move)
            && Moved(entry, track, move).0 == Finished(entry, action.payload.result, action.event, now)
  {
  }

  /** The worker persists the terminal output, which ends the run. */
  lemma Ends(limits: Limits, states: seq<System>, labels: seq<Label>, id: string, now: Time, trace: seq<Action>, n: nat)
    returns (states': seq<System>, labels': seq<Label>)
    requires Behaves(limits, states, labels) && At(states[|labels|], id, now, trace, n, n, Idle)
    requires n < |trace| && Terminal(trace[n]) && Announced(trace[n])
    ensures Behaves(limits, states', labels') && states <= states' && id in states'[|labels'|].repo.runs
    ensures states'[|labels'|].repo.runs[id]
            == Finished(states[|labels|].repo.runs[id], trace[n].payload.result, trace[n].event, now)
  {
    states', labels' := GoesProducing(limits, states, labels, id, now, trace, n, n, Idle);
    states', labels' := GoesTaking(limits, states', labels', id, now, trace, n, n + 1);
    var s := states'[|labels'|];
    FinishWorks(s.repo.runs[id], s.tracks[id], id, now, trace, n, n + 1);
    states', labels' := Goes(limits, states', labels', id, Write(|s.tracks[id].attempts|, now));
  }

  lemma LastIsTerminal(env: Env, request: RunRequest)
    requires Uninterrupted(env)
    ensures var trace := Execute(env, request, None);
            trace != [] && Terminal(trace[|trace| - 1]) && Announced(trace[|trace| - 1])
  {
    ExecuteCloses(env, request, None);
  }

  /** Any uninterrupted call, persisted to its end: the state before the last step of its run, and the one at the end. */
  lemma RunsToEnd(env: Env, request: RunRequest) returns (states: seq<System>, labels: seq<Label>, i: nat)
    requires Uninterrupted(env)
    ensures Behaves(env.limits, states, labels) && i < |states|
    ensures var id := request.runId;
            && id in states[i].repo.runs && id in states[|labels|].repo.runs
            && var before, after := states[i].repo.runs[id], states[|labels|].repo.runs[id];
            && !IsTerminal(before.record.status) && IsTerminal(after.record.status)
            && |after.log| == |before.log| + 1 && |before.log| == before.record.lastEventSeq
  {
    var trace, id, now := Execute(env, request, None), request.runId, request.deadline - 2;
    LastIsTerminal(env, request);
    var n := |trace| - 1;
    NoTerminalBefore(env, request, None, n);
    states, labels := KeepsUp(env, request, trace, n);
    i := |labels|;
    ReachedOk(env.limits, states, labels, i, id);
    var result := trace[n].payload.result;
    TerminalTestsAgree(result.status, trace[n].event);
    var before := states;
    states, labels := Ends(env.limits, states, labels, id, now, trace, n);
    assert states[i] == before[i];
  }
}
