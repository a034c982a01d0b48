/** What the invariant means for runs: the theorems about any number of workers, crashes and takeovers. */
module Guarantees {
  import opened Domain
  import opened Engine
  import opened EngineInvariants
  import opened Transcript
  import opened Store
  import opened Workers
  import opened WorkersInvariant
  import opened WorkersSteps
  import opened WorkersCheckpoints
  import opened WorkersSafety
  import H = StoreHistory

  /** The invariant of one run in a reachable state. */
  lemma ReachedOk(limits: Limits, states: seq<System>, labels: seq<Label>, k: nat, id: string)
    requires Behaves(limits, states, labels) && k < |states|
    requires id in states[k].repo.runs || id in states[k].tracks
    ensures id in states[k].repo.runs && id in states[k].tracks
    ensures EntryOk(id, states[k].repo.runs[id])
    ensures TrackOk(limits, id, states[k].repo.runs[id], states[k].tracks[id])
  {
    AlwaysOk(limits, states, labels, k);
  }

  lemma ReachedKeys(limits: Limits, states: seq<System>, labels: seq<Label>, k: nat)
    requires Behaves(limits, states, labels) && k < |states|
    ensures states[k].tracks.Keys == states[k].repo.runs.Keys
  {
    AlwaysOk(limits, states, labels, k);
  }

  // What a track remembers

  /** Nothing that was stored, logged or leased is forgotten, and an attempt that started keeps its trace. */
  ghost predicate Remembers(track: Track, track': Track) {
    && track.saved <= track'.saved
    && track.writers <= track'.writers
    && |track.attempts| <= |track'.attempts|
    && forall f :: 1 <= f <= |track.attempts| ==> Continues(AttemptOf(track, f), AttemptOf(track', f))
  }

  predicate Continues(att: Attempt, att': Attempt) {
    && att.lease == att'.lease
    && att.produced <= att'.produced && att.written <= att'.written
    && (att.started ==> att'.started && att'.trace == att.trace && att'.loaded == att.loaded)
  }

  lemma RemembersTransitive(a: Track, b: Track, c: Track)
    requires Remembers(a, b) && Remembers(b, c)
    ensures Remembers(a, c)
  {
    forall f | 1 <= f <= |a.attempts|
      ensures Continues(AttemptOf(a, f), AttemptOf(c, f))
    {
      assert Continues(AttemptOf(a, f), AttemptOf(b, f)) && Continues(AttemptOf(b, f), AttemptOf(c, f));
    }
  }

  lemma MoveRemembers(entry: Entry, track: Track, move: Move)
    requires CanMove(track, move)
    ensures Remembers(track, Moved(entry, track, move).1)
  {
    var track' := Moved(entry, track, move).1;
    assert Continues(AttemptOf(track, move.fence), AttemptOf(track', move.fence));
  }

  lemma LoadRemembers(entry: Entry, track: Track, fence: nat, trace: seq<Action>)
    requires 1 <= fence <= |track.attempts| && !AttemptOf(track, fence).started
    ensures Remembers(track, LoadedTrack(entry, track, fence, trace))
  {
  }

  lemma StepRemembers(limits: Limits, s: System, s': System, step: Label, id: string)
    requires s.tracks.Keys == s.repo.runs.Keys && Next(limits, s, s', step) && id in s.tracks
    ensures id in s'.tracks && Remembers(s.tracks[id], s'.tracks[id])
  {
    if s'.tracks[id] != s.tracks[id] {
      match step
      case Creating(request, now) => CreationEffect(s.repo, request, now);
      case Leasing(_, _, _, _) =>
      case Loading(_, fence, env) =>
        var trace := Execute(env, RequestFrom(AttemptOf(s.tracks[id], fence).lease), LoadedState(s.repo.runs[id]));
        LoadRemembers(s.repo.runs[id], s.tracks[id], fence, trace);
      case Moving(_, move) => MoveRemembers(s.repo.runs[id], s.tracks[id], move);
    }
  }

  lemma {:induction false} TracksRemember(limits: Limits, states: seq<System>, labels: seq<Label>, i: nat, k: nat, id: string)
    requires Behaves(limits, states, labels) && i <= k < |states| && id in states[i].tracks
    ensures id in states[k].tracks && Remembers(states[i].tracks[id], states[k].tracks[id])
  {
    if i < k {
      TracksRemember(limits, states, labels, i, k - 1, id);
      AlwaysOk(limits, states, labels, k - 1);
      assert Next(limits, states[k - 1], states[k - 1 + 1], labels[k - 1]);
      StepRemembers(limits, states[k - 1], states[k], labels[k - 1], id);
      RemembersTransitive(states[i].tracks[id], states[k - 1].tracks[id], states[k].tracks[id]);
    }
  }

  lemma MoveGrowsRun(repo: Repo, track: Track, move: Move, id: string)
    requires Store.Valid(repo) && CanMove(track, move) && AttemptOf(track, move.fence).lease.id == id && id in repo.runs
    ensures H.Grows(repo.runs[id], Moved(repo.runs[id], track, move).0)
  {
    MoveIsCall(repo, track, move);
    if CallOf(track, move).Some? {
      H.CallGrows(repo, CallOf(track, move).value, id);
    }
  }

  lemma CallGrowsRun(repo: Repo, call: Call, id: string)
    requires Store.Valid(repo) && Store.Enabled(repo, call) && id in repo.runs
    ensures id in Store.After(repo, call).runs && H.Grows(repo.runs[id], Store.After(repo, call).runs[id])
  {
    H.CallGrows(repo, call, id);
  }

  lemma LeaseGrowsRun(s: System, s': System, target: string, workerId: string, now: Time, ttl: int, id: string)
    requires Store.Valid(s.repo) && Leases(s, s', target, workerId, now, ttl) && id in s.repo.runs
    ensures id in s'.repo.runs && H.Grows(s.repo.runs[id], s'.repo.runs[id])
  {
    CallGrowsRun(s.repo, Call.LeaseNext(target, workerId, now, ttl), id);
  }

  lemma MovesEffect(s: System, s': System, target: string, move: Move, id: string)
    requires Moves(s, s', target, move) && id in s.repo.runs
    ensures id in s'.repo.runs
    ensures s'.repo.runs[id] == if id == target then Moved(s.repo.runs[id], s.tracks[id], move).0 else s.repo.runs[id]
  {
  }

  lemma MovesGrowRun(s: System, s': System, target: string, move: Move, id: string)
    requires Store.Valid(s.repo) && Moves(s, s', target, move) && id in s.repo.runs
    requires AttemptOf(s.tracks[target], move.fence).lease.id == target
    ensures id in s'.repo.runs && H.Grows(s.repo.runs[id], s'.repo.runs[id])
  {
    MovesEffect(s, s', target, move, id);
    if target == id {
      MoveGrowsRun(s.repo, s.tracks[id], move, id);
    }
  }

  lemma StepGrowsRun(limits: Limits, s: System, s': System, step: Label, id: string)
    requires Store.Valid(s.repo) && Next(limits, s, s', step) && id in s.repo.runs
    requires step.Moving? ==> AttemptOf(s.tracks[step.id], step.move.fence).lease.id == step.id
    ensures id in s'.repo.runs && H.Grows(s.repo.runs[id], s'.repo.runs[id])
  {
    match step
    case Creating(request, now) => CallGrowsRun(s.repo, Call.Create(request, now), id);
    case Leasing(target, workerId, now, ttl) => LeaseGrowsRun(s, s', target, workerId, now, ttl, id);
    case Loading(_, _, _) =>
    case Moving(target, move) => MovesGrowRun(s, s', target, move, id);
  }

  lemma ReachedValid(limits: Limits, states: seq<System>, labels: seq<Label>, k: nat)
    requires Behaves(limits, states, labels) && k < |states|
    ensures Store.Valid(states[k].repo)
  {
    AlwaysOk(limits, states, labels, k);
  }

  lemma ReachedMove(limits: Limits, states: seq<System>, labels: seq<Label>, k: nat)
    requires Behaves(limits, states, labels) && k < |labels| && labels[k].Moving?
    ensures labels[k].id in states[k].tracks && CanMove(states[k].tracks[labels[k].id], labels[k].move)
    ensures AttemptOf(states[k].tracks[labels[k].id], labels[k].move.fence).lease.id == labels[k].id
  {
    var id := labels[k].id;
    assert Next(limits, states[k], states[k + 1], labels[k]);
    ReachedOk(limits, states, labels, k, id);
    AttemptsApply(limits, id, states[k].repo.runs[id], states[k].tracks[id], labels[k].move.fence);
  }

  lemma ReachedGrows(limits: Limits, states: seq<System>, labels: seq<Label>, k: nat, id: string)
    requires Behaves(limits, states, labels) && k < |labels| && id in states[k].repo.runs
    ensures id in states[k + 1].repo.runs && H.Grows(states[k].repo.runs[id], states[k + 1].repo.runs[id])
  {
    ReachedValid(limits, states, labels, k);
    if labels[k].Moving? {
      ReachedMove(limits, states, labels, k);
    }
    assert Next(limits, states[k], states[k + 1], labels[k]);
    StepGrowsRun(limits, states[k], states[k + 1], labels[k], id);
  }

  /** In a run of the system every run's log only grows, and a finished run stays as it is. */
  lemma {:induction false} RunsGrow(limits: Limits, states: seq<System>, labels: seq<Label>, i: nat, k: nat, id: string)
    requires Behaves(limits, states, labels) && i <= k < |states| && id in states[i].repo.runs
    ensures id in states[k].repo.runs && H.Grows(states[i].repo.runs[id], states[k].repo.runs[id])
  {
    if i < k {
      RunsGrow(limits, states, labels, i, k - 1, id);
      ReachedGrows(limits, states, labels, k - 1, id);
      H.GrowsTransitive(states[i].repo.runs[id], states[k - 1].repo.runs[id], states[k].repo.runs[id]);
    }
  }

  // What an attempt executes

  lemma MoveStartsNone(entry: Entry, track: Track, move: Move, f: nat)
    requires CanMove(track, move) && 1 <= f <= |track.attempts|
    ensures AttemptOf(Moved(entry, track, move).1, f).started == AttemptOf(track, f).started
  {
  }

  lemma NewAttemptsWait(limits: Limits, s: System, s': System, step: Label, id: string, f: nat)
    requires Next(limits, s, s', step) && s.tracks.Keys == s.repo.runs.Keys && id in s'.tracks && 1 <= f <= |s'.tracks[id].attempts|
    requires id !in s.tracks || |s.tracks[id].attempts| < f
    ensures !AttemptOf(s'.tracks[id], f).started
  {
  }

  /** An attempt starts when it loads, and at no other step. */
  lemma OnlyLoadingStarts(limits: Limits, s: System, s': System, step: Label, id: string, f: nat)
    requires Next(limits, s, s', step) && s.tracks.Keys == s.repo.runs.Keys && id in s'.tracks && 1 <= f <= |s'.tracks[id].attempts|
    requires AttemptOf(s'.tracks[id], f).started
    ensures id in s.tracks && f <= |s.tracks[id].attempts|
    ensures AttemptOf(s.tracks[id], f).started || (step.Loading? && step.id == id && step.fence == f)
  {
    if id !in s.tracks || |s.tracks[id].attempts| < f {
      NewAttemptsWait(limits, s, s', step, id, f);
    } else if step.Moving? && step.id == id {
      MoveStartsNone(s.repo.runs[id], s.tracks[id], step.move, f);
    }
  }

  ghost predicate StartedAt(limits: Limits, s: System, step: Label, id: string, f: nat, att: Attempt)
    requires 1 <= f
  {
    && step.Loading? && step.id == id && step.fence == f && step.env.limits == limits
    && id in s.repo.runs && id in s.tracks && f <= |s.tracks[id].attempts| && !AttemptOf(s.tracks[id], f).started
    && att.loaded == LoadedState(s.repo.runs[id])
    && att.trace == Execute(step.env, RequestFrom(att.lease), att.loaded)
  }

  /** Every attempt executes one engine call, from the checkpoint that was stored when it loaded. */
  lemma {:induction false} StartedBy(limits: Limits, states: seq<System>, labels: seq<Label>, k: nat, id: string, f: nat) returns (m: nat)
    requires Behaves(limits, states, labels) && k < |states| && id in states[k].tracks
    requires 1 <= f <= |states[k].tracks[id].attempts| && AttemptOf(states[k].tracks[id], f).started
    ensures m < k && StartedAt(limits, states[m], labels[m], id, f, AttemptOf(states[k].tracks[id], f))
  {
    if k > 0 {
      var s, s', step := states[k - 1], states[k], labels[k - 1];
      assert Next(limits, states[k - 1], states[k - 1 + 1], labels[k - 1]);
      ReachedKeys(limits, states, labels, k - 1);
      OnlyLoadingStarts(limits, s, s', step, id, f);
      StepRemembers(limits, s, s', step, id);
      assert Continues(AttemptOf(s.tracks[id], f), AttemptOf(s'.tracks[id], f));
      if AttemptOf(s.tracks[id], f).started {
        m := StartedBy(limits, states, labels, k - 1, id, f);
      } else {
        m := k - 1;
      }
    }
  }

  // Tools with side effects

  /** An attempt under a newer fence than a checkpoint enters tools only from there on. */
  lemma NewerAttemptsGoOn(limits: Limits, id: string, entry: Entry, track: Track, k: nat, f: nat, i: nat)
    requires TrackOk(limits, id, entry, track) && k < |track.saved| && 1 <= f <= |track.attempts|
    requires track.saved[k].checkpoint.fence < f
    requires i < |AttemptOf(track, f).trace| && AttemptOf(track, f).trace[i].Invoke?
    ensures AttemptOf(track, f).loaded.Some? && AtOrBefore(track.saved[k].checkpoint.state, AttemptOf(track, f).loaded.value)
    ensures AtOrBefore(AttemptOf(track, f).loaded.value, AttemptOf(track, f).trace[i].state)
  {
    AttemptsApply(limits, id, entry, track, f);
    assert CaughtUp(AttemptOf(track, f), track.saved[k]);
    assert StateIn(AttemptOf(track, f).trace[i]) == Some(AttemptOf(track, f).trace[i].state);
  }

  /** An attempt under a newer fence than a tool-phase checkpoint replays none of that turn's writes. */
  lemma NewerAttemptsReplayReadOnly(limits: Limits, id: string, entry: Entry, track: Track, k: nat, f: nat, i: nat)
    requires TrackOk(limits, id, entry, track) && k < |track.saved| && 1 <= f <= |track.attempts|
    requires track.saved[k].checkpoint.state.phase.ToolsPhase? && track.saved[k].checkpoint.fence < f
    requires i < |AttemptOf(track, f).trace| && AttemptOf(track, f).trace[i].Invoke?
    requires AttemptOf(track, f).trace[i].state.turn <= track.saved[k].checkpoint.state.turn
    ensures AttemptOf(track, f).trace[i].readOnly
  {
    AttemptsApply(limits, id, entry, track, f);
    NewerAttemptsGoOn(limits, id, entry, track, k, f, i);
  }

  /** What was stored once is where every later attempt stands or has passed. */
  lemma StoredStays(limits: Limits, states: seq<System>, labels: seq<Label>, id: string, i: nat, stored: Stored, k: nat) returns (n: nat)
    requires Behaves(limits, states, labels) && i <= k < |states| && id in states[i].tracks
    requires stored in states[i].tracks[id].saved
    ensures id in states[k].tracks && n < |states[k].tracks[id].saved| && states[k].tracks[id].saved[n] == stored
  {
    TracksRemember(limits, states, labels, i, k, id);
    n :| 0 <= n < |states[i].tracks[id].saved| && states[i].tracks[id].saved[n] == stored;
    assert states[k].tracks[id].saved[n] == stored;
  }

  /**
    A tool whose completion was stored is not run again: no attempt under a newer fence than a checkpoint ever
    enters a call that the checkpoint has behind it, read-only or not.
   */
  lemma CompletedNotRepeated(limits: Limits, states: seq<System>, labels: seq<Label>, id: string, i: nat, stored: Stored, k: nat, f: nat, a: Action)
    requires Behaves(limits, states, labels) && i <= k < |states| && id in states[i].tracks
    requires stored in states[i].tracks[id].saved
    requires id in states[k].tracks && stored.checkpoint.fence < f <= |states[k].tracks[id].attempts|
    requires a in AttemptOf(states[k].tracks[id], f).trace && a.Invoke?
    ensures !Earlier(a.state, stored.checkpoint.state)
  {
    var n := StoredStays(limits, states, labels, id, i, stored, k);
    ReachedOk(limits, states, labels, k, id);
    var track := states[k].tracks[id];
    var j :| 0 <= j < |AttemptOf(track, f).trace| && AttemptOf(track, f).trace[j] == a;
    NewerAttemptsGoOn(limits, id, states[k].repo.runs[id], track, n, f, j);
    AtOrBeforeTransitive(stored.checkpoint.state, AttemptOf(track, f).loaded.value, a.state);
    StoredPhase(limits, states, labels, k, id, stored);
  }

  /** In the model phase of a turn no call is pending. */
  lemma StoredPhase(limits: Limits, states: seq<System>, labels: seq<Label>, k: nat, id: string, stored: Stored)
    requires Behaves(limits, states, labels) && k < |states| && id in states[k].tracks
    requires stored in states[k].tracks[id].saved
    ensures var s := stored.checkpoint.state;
            (s.phase.ModelPhase? && s.nextTool == 0) || s.phase.ToolsPhase?
  {
    ReachedOk(limits, states, labels, k, id);
    CheckpointMatchesEvent(limits, states, labels, k, id, stored);
  }

  /**
    Once a tool-phase checkpoint of a turn is stored under a fence, no attempt under a newer fence ever
    executes a call of that turn, or of an earlier one, that is not read-only: not then, and not later.
   */
  lemma WritesNotReplayed(limits: Limits, states: seq<System>, labels: seq<Label>, id: string, i: nat, stored: Stored, k: nat, f: nat, a: Action)
    requires Behaves(limits, states, labels) && i <= k < |states| && id in states[i].tracks
    requires stored in states[i].tracks[id].saved && stored.checkpoint.state.phase.ToolsPhase?
    requires id in states[k].tracks && stored.checkpoint.fence < f <= |states[k].tracks[id].attempts|
    requires a in AttemptOf(states[k].tracks[id], f).trace && a.Invoke? && !a.readOnly
    ensures a.state.turn > stored.checkpoint.state.turn
  {
    var n := StoredStays(limits, states, labels, id, i, stored, k);
    ReachedOk(limits, states, labels, k, id);
    var track := states[k].tracks[id];
    var j :| 0 <= j < |AttemptOf(track, f).trace| && AttemptOf(track, f).trace[j] == a;
    if a.state.turn <= stored.checkpoint.state.turn {
      NewerAttemptsReplayReadOnly(limits, id, states[k].repo.runs[id], track, n, f, j);
      assert false;
    }
  }

  // The log

  lemma {:induction false} SentGrows(trace: seq<Action>, n: nat, m: nat)
    requires n <= m <= |trace|
    ensures Sent(trace, n) <= Sent(trace, m)
  {
    if n < m {
      SentGrows(trace, n, m - 1);
    }
  }

  /** What the worker logs of an engine call's outputs. */
  function WithoutCreation(outputs: seq<Output>): seq<(EventType, Payload)> {
    if outputs == [] then []
    else
      var last := outputs[|outputs| - 1];
      WithoutCreation(outputs[..|outputs| - 1]) + if last.event != RunCreated then [(last.event, last.payload)] else []
  }

  lemma {:induction false} SentIsOutputs(trace: seq<Action>, n: nat)
    requires n <= |trace|
    ensures Sent(trace, n) == WithoutCreation(Outputs(trace[..n]))
  {
    if n > 0 {
      SentIsOutputs(trace, n - 1);
      var last := trace[n - 1];
      assert trace[..n][..n - 1] == trace[..n - 1];
      if last.Emit? {
        var output := Output(Numbers(trace[..n]), last.event, last.payload, last.checkpoint);
        assert (Outputs(trace[..n - 1]) + [output])[..|Outputs(trace[..n - 1])|] == Outputs(trace[..n - 1]);
      }
    }
  }

  ghost predicate WellShaped(id: string, record: RunRecord, log: seq<RunEvent>) {
    && |log| == record.lastEventSeq >= 1
    && (forall i :: 0 <= i < |log| ==> log[i].sequence == i + 1 && log[i].runId == id)
    && (forall i :: 0 <= i < |log| ==> (log[i].event == RunCreated <==> i == 0))
    && (forall i :: 0 <= i < |log| && TerminalEvent(log[i].event) ==> i == |log| - 1)
    && (TerminalEvent(log[|log| - 1].event) <==> IsTerminal(record.status))
    && (IsTerminal(record.status) <==> record.finalResult.Some?)
    && (IsTerminal(record.status) ==>
          && record.finalResult.value.status == record.status
          && TerminalStatus(log[|log| - 1].event) == Some(record.status)
          && log[|log| - 1].payload == ResultPayload(record.finalResult.value))
  }

  lemma ShapeFollows(id: string, entry: Entry)
    requires EntryOk(id, entry) && LogOk(entry.record.status, entry.log)
    ensures WellShaped(id, entry.record, entry.log)
  {
    TerminalTestsAgree(entry.record.status, entry.log[|entry.log| - 1].event);
  }

  /** The shape of every run's log, in every state the system can reach. */
  lemma LogShape(limits: Limits, states: seq<System>, labels: seq<Label>, k: nat, id: string)
    requires Behaves(limits, states, labels) && k < |states| && id in states[k].repo.runs
    ensures WellShaped(id, states[k].repo.runs[id].record, states[k].repo.runs[id].log)
  {
    ReachedOk(limits, states, labels, k, id);
    ShapeFollows(id, states[k].repo.runs[id]);
  }

  lemma SentPrefix(trace: seq<Action>, n: nat)
    requires n <= |trace|
    ensures Sent(trace, n) <= WithoutCreation(Outputs(trace))
  {
    SentGrows(trace, n, |trace|);
    SentIsOutputs(trace, |trace|);
    assert trace[..|trace|] == trace;
  }

  /** Fences behind the log never go back, and each one's events are a prefix of that attempt's engine outputs. */
  lemma LogByFence(limits: Limits, states: seq<System>, labels: seq<Label>, k: nat, id: string)
    requires Behaves(limits, states, labels) && k < |states| && id in states[k].repo.runs
    ensures id in states[k].tracks
    ensures var log, track := states[k].repo.runs[id].log, states[k].tracks[id];
            && |track.writers| == |log|
            && |track.attempts| == states[k].repo.runs[id].record.fence
            && (forall i :: 0 <= i < |log| ==> (track.writers[i] == 0 <==> i == 0) && track.writers[i] <= |track.attempts|)
            && (forall i, j :: 0 <= i < j < |log| ==> track.writers[i] <= track.writers[j])
            && forall f :: 1 <= f <= |track.attempts| ==>
                 Part(log, track.writers, f) <= WithoutCreation(Outputs(AttemptOf(track, f).trace))
  {
    ReachedOk(limits, states, labels, k, id);
    var entry, track := states[k].repo.runs[id], states[k].tracks[id];
    forall f | 1 <= f <= |track.attempts|
      ensures Part(entry.log, track.writers, f) <= WithoutCreation(Outputs(AttemptOf(track, f).trace))
    {
      AttemptsApply(limits, id, entry, track, f);
      SentPrefix(AttemptOf(track, f).trace, AttemptOf(track, f).written);
    }
  }

  // Checkpoints

  /** Stored checkpoints only move forward, and each is what the engine attached to the event at its sequence. */
  lemma CheckpointsProgress(limits: Limits, states: seq<System>, labels: seq<Label>, k: nat, id: string)
    requires Behaves(limits, states, labels) && k < |states| && id in states[k].repo.runs
    ensures id in states[k].tracks
    ensures var entry, saved := states[k].repo.runs[id], states[k].tracks[id].saved;
            && (forall i, j :: 0 <= i < j < |saved| ==>
                  && AtOrBefore(saved[i].checkpoint.state, saved[j].checkpoint.state)
                  && saved[i].checkpoint.eventSequence < saved[j].checkpoint.eventSequence
                  && saved[i].checkpoint.fence <= saved[j].checkpoint.fence)
            && entry.checkpoint == (if saved == [] then None else Some(saved[|saved| - 1].checkpoint))
  {
    ReachedOk(limits, states, labels, k, id);
    var entry, track := states[k].repo.runs[id], states[k].tracks[id];
    forall i, j | 0 <= i < j < |track.saved|
      ensures InOrder(track.saved[i], track.saved[j])
    {
    }
  }

  /** The stored state is the one the engine attached to the event that the log holds at its sequence. */
  lemma CheckpointMatchesEvent(limits: Limits, states: seq<System>, labels: seq<Label>, k: nat, id: string, stored: Stored)
    requires Behaves(limits, states, labels) && k < |states| && id in states[k].repo.runs
    requires id in states[k].tracks && stored in states[k].tracks[id].saved
    ensures var log, track, checkpoint := states[k].repo.runs[id].log, states[k].tracks[id], stored.checkpoint;
            && 1 <= checkpoint.eventSequence <= |log| == |track.writers|
            && 1 <= checkpoint.fence <= |track.attempts|
            && track.writers[checkpoint.eventSequence - 1] == checkpoint.fence
            && stored.index < |AttemptOf(track, checkpoint.fence).trace|
            && AttemptOf(track, checkpoint.fence).trace[stored.index] ==
               Emit(log[checkpoint.eventSequence - 1].event, log[checkpoint.eventSequence - 1].payload, Some(checkpoint.state))
    ensures Faithful(RequestFrom(states[k].repo.runs[id].record), limits, stored.checkpoint.state)
  {
    ReachedOk(limits, states, labels, k, id);
    var entry, track := states[k].repo.runs[id], states[k].tracks[id];
    assert StoredOk(entry.log, track, stored);
    AttemptsApply(limits, id, entry, track, stored.checkpoint.fence);
    assert StateIn(AttemptOf(track, stored.checkpoint.fence).trace[stored.index]).Some?;
  }

  /** Why the store refuses a worker's call, if it does. */
  function Refusal(repo: Repo, call: Call): Option<StoreError>
    requires !call.Create? && !call.LeaseNext?
  {
    match call
    case Renew(id, owner, fence, now, ttl) =>
      (match RenewLease(repo, id, owner, fence, now, ttl).1 case Ok(_) => None case Err(e) => Some(e))
    case Append(id, owner, fence, event, payload, now) =>
      (match AppendEvent(repo, id, owner, fence, event, payload, now).1 case Ok(_) => None case Err(e) => Some(e))
    case Save(owner, checkpoint) =>
      (match SaveCheckpoint(repo, owner, checkpoint).1 case Ok(_) => None case Err(e) => Some(e))
    case Finish(id, owner, fence, result, event, now) =>
      (match FinishRun(repo, id, owner, fence, result, event, now).1 case Ok(_) => None case Err(e) => Some(e))
  }

  lemma WriteOnlyLosesLease(limits: Limits, id: string, repo: Repo, track: Track, fence: nat, now: Time)
    requires id in repo.runs && TrackOk(limits, id, repo.runs[id], track)
    requires CanMove(track, Write(fence, now)) && CallOf(track, Write(fence, now)).Some?
    ensures var call := CallOf(track, Write(fence, now)).value;
            Refusal(repo, call) == None || Refusal(repo, call) == Some(LeaseLost)
  {
    AttemptsApply(limits, id, repo.runs[id], track, fence);
    assert Announced(AttemptOf(track, fence).trace[AttemptOf(track, fence).written]);
  }

  lemma SaveOnlyLosesLease(limits: Limits, id: string, repo: Repo, track: Track, fence: nat, now: Time)
    requires id in repo.runs && EntryOk(id, repo.runs[id]) && TrackOk(limits, id, repo.runs[id], track)
    requires CanMove(track, Move.Save(fence, now))
    ensures var call := CallOf(track, Move.Save(fence, now)).value;
            Refusal(repo, call) == None || Refusal(repo, call) == Some(LeaseLost)
  {
    AttemptsApply(limits, id, repo.runs[id], track, fence);
    if Holds(repo.runs[id].record, AttemptOf(track, fence).lease.leaseOwner, fence, now) {
      SaveNotRefused(limits, id, repo.runs[id], track, fence, now);
    }
  }

  lemma HeartbeatOnlyLosesLease(limits: Limits, id: string, repo: Repo, track: Track, fence: nat, now: Time, ttl: int)
    requires id in repo.runs && TrackOk(limits, id, repo.runs[id], track)
    requires CanMove(track, Heartbeat(fence, now, ttl))
    ensures var call := CallOf(track, Heartbeat(fence, now, ttl)).value;
            Refusal(repo, call) == None || Refusal(repo, call) == Some(LeaseLost)
  {
    AttemptsApply(limits, id, repo.runs[id], track, fence);
  }

  /**
    A worker's call is refused for a lost lease only: a checkpoint is never ahead of the log or stale,
    a terminal event never disagrees with its result, and the run is never missing.
   */
  lemma OnlyLeasesAreLost(limits: Limits, states: seq<System>, labels: seq<Label>, k: nat, id: string, move: Move)
    requires Behaves(limits, states, labels) && k < |states| && id in states[k].tracks
    requires CanMove(states[k].tracks[id], move) && CallOf(states[k].tracks[id], move).Some?
    ensures var call := CallOf(states[k].tracks[id], move).value;
            Refusal(states[k].repo, call) == None || Refusal(states[k].repo, call) == Some(LeaseLost)
  {
    ReachedOk(limits, states, labels, k, id);
    match move
    case Write(fence, now) => WriteOnlyLosesLease(limits, id, states[k].repo, states[k].tracks[id], fence, now);
    case Save(fence, now) => SaveOnlyLosesLease(limits, id, states[k].repo, states[k].tracks[id], fence, now);
    case Heartbeat(fence, now, ttl) => HeartbeatOnlyLosesLease(limits, id, states[k].repo, states[k].tracks[id], fence, now, ttl);
    case Produce(_) =>
    case StopEngine(_) =>
    case Take(_) =>
    case Leave(_) =>
  }

  /** A terminal output always decodes to a matching result, so the worker always has a finish call to make. */
  lemma TerminalOutputsDecode(limits: Limits, states: seq<System>, labels: seq<Label>, k: nat, id: string, fence: nat, now: Time)
    requires Behaves(limits, states, labels) && k < |states| && id in states[k].tracks
    requires CanMove(states[k].tracks[id], Write(fence, now))
    ensures CallOf(states[k].tracks[id], Write(fence, now)).Some?
  {
    ReachedOk(limits, states, labels, k, id);
    var track := states[k].tracks[id];
    AttemptsApply(limits, id, states[k].repo.runs[id], track, fence);
    assert Announced(AttemptOf(track, fence).trace[AttemptOf(track, fence).written]);
  }

  // Budgets

  /** However often workers crash, no tool is entered over budget, and every call ever recorded is counted. */
  lemma BudgetsSurviveCrashes(limits: Limits, states: seq<System>, labels: seq<Label>, k: nat, id: string, f: nat, a: Action)
    requires Behaves(limits, states, labels) && k < |states| && id in states[k].tracks
    requires 1 <= f <= |states[k].tracks[id].attempts|
    requires a in AttemptOf(states[k].tracks[id], f).trace && a.Invoke?
    ensures WithinLimits(limits, a.state.usage)
    ensures a.state.toolCallsUsed == CallsIn(a.state.messages) <= limits.maxToolCalls
  {
    ReachedOk(limits, states, labels, k, id);
    var entry, track := states[k].repo.runs[id], states[k].tracks[id];
    AttemptsApply(limits, id, entry, track, f);
    var trace := AttemptOf(track, f).trace;
    var i :| 0 <= i < |trace| && trace[i] == a;
    assert StateIn(trace[i]) == Some(a.state);
    var request := RequestFrom(entry.record);
    assert Faithful(request, limits, a.state);
    var blocks :| IsTranscript(request.input, a.state, blocks);
    CallsCounted(request.input, blocks);
    assert RequestedFirst(trace, i);
  }
}
