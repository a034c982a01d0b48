/** The invariant of the whole system, and its proof step by step. */
module WorkersInvariant {
  import opened Domain
  import opened Engine
  import opened EngineInvariants
  import opened EngineTrace
  import opened Store
  import opened Workers

  // What one attempt contributed to the log

  /** The outputs among the first n actions, without the engine's own creation event. */
  function Sent(trace: seq<Action>, n: nat): seq<(EventType, Payload)>
    requires n <= |trace|
  {
    if n == 0 then []
    else
      var a := trace[n - 1];
      Sent(trace, n - 1) + if a.Emit? && a.event != RunCreated then [(a.event, a.payload)] else []
  }

  /** The events of a log that were written under one fence. */
  function Part(log: seq<RunEvent>, writers: seq<nat>, fence: nat): seq<(EventType, Payload)>
    requires |log| == |writers|
  {
    if log == [] then []
    else
      var n := |log| - 1;
      Part(log[..n], writers[..n], fence) + if writers[n] == fence then [(log[n].event, log[n].payload)] else []
  }

  lemma PartGrows(log: seq<RunEvent>, writers: seq<nat>, event: RunEvent, writer: nat, fence: nat)
    requires |log| == |writers|
    ensures Part(log + [event], writers + [writer], fence) ==
            Part(log, writers, fence) + if writer == fence then [(event.event, event.payload)] else []
  {
    assert (log + [event])[..|log|] == log && (writers + [writer])[..|log|] == writers;
  }

  lemma {:induction false} PartEmpty(log: seq<RunEvent>, writers: seq<nat>, fence: nat)
    requires |log| == |writers| && fence !in writers
    ensures Part(log, writers, fence) == []
  {
    if log != [] {
      PartEmpty(log[..|log| - 1], writers[..|log| - 1], fence);
    }
  }

  // The invariant

  ghost predicate ShapeOk(att: Attempt) {
    && att.written <= att.produced <= |att.trace|
    && (!att.started ==> att.trace == [] && att.loaded.None? && (att.hand.Idle? || att.hand.Gone?))
    && (att.hand.Writing? ==>
          att.written < att.produced && att.trace[att.written].Emit? && att.trace[att.written].event != RunCreated)
  }

  ghost predicate SnapshotOk(id: string, request: RunRequest, fence: nat, lease: RunRecord) {
    lease.id == id && RequestFrom(lease) == request && lease.fence == fence && lease.leaseOwner != ""
  }

  /** The event at a sequence number is the one an action emitted under a fence. */
  ghost predicate Logged(log: seq<RunEvent>, writers: seq<nat>, sequence: nat, fence: nat, action: Action)
    requires |log| == |writers|
  {
    && 1 <= sequence <= |log|
    && writers[sequence - 1] == fence
    && action.Emit?
    && log[sequence - 1].event == action.event
    && log[sequence - 1].payload == action.payload
  }

  ghost predicate SavingOk(log: seq<RunEvent>, writers: seq<nat>, fence: nat, att: Attempt)
    requires |log| == |writers|
  {
    att.hand.Saving? ==>
      && 1 <= att.written <= |att.trace|
      && Logged(log, writers, att.hand.sequence, fence, att.trace[att.written - 1])
      && att.trace[att.written - 1].checkpoint == Some(att.hand.state)
  }

  ghost predicate AttemptOk(limits: Limits, id: string, request: RunRequest, log: seq<RunEvent>, writers: seq<nat>,
                            fence: nat, att: Attempt)
    requires |log| == |writers|
  {
    && ShapeOk(att)
    && SnapshotOk(id, request, fence, att.lease)
    && FromEngine(request, limits, att.loaded, att.trace)
    && Part(log, writers, fence) == Sent(att.trace, att.written)
    && SavingOk(log, writers, fence, att)
  }

  ghost predicate LogOk(status: RunStatus, log: seq<RunEvent>) {
    && 1 <= |log|
    && log[0].event == RunCreated
    && (forall i :: 1 <= i < |log| ==> log[i].event != RunCreated)
    && (forall i :: 0 <= i < |log| - 1 ==> !TerminalEvent(log[i].event))
    && (TerminalEvent(log[|log| - 1].event) <==> IsTerminal(status))
  }

  ghost predicate WritersOk(writers: seq<nat>, fence: nat) {
    && 1 <= |writers|
    && writers[0] == 0
    && (forall i :: 1 <= i < |writers| ==> 1 <= writers[i] <= fence)
    && (forall i, j :: 0 <= i < j < |writers| ==> writers[i] <= writers[j])
  }

  /** A stored checkpoint is the state its attempt's engine attached to the event at its sequence. */
  ghost predicate StoredOk(log: seq<RunEvent>, track: Track, stored: Stored)
    requires |log| == |track.writers|
  {
    var checkpoint := stored.checkpoint;
    && 1 <= checkpoint.fence <= |track.attempts|
    && var att := AttemptOf(track, checkpoint.fence);
    && stored.index < att.written <= |att.trace|
    && att.trace[stored.index].Emit?
    && att.trace[stored.index].checkpoint == Some(checkpoint.state)
    && Logged(log, track.writers, checkpoint.eventSequence, checkpoint.fence, att.trace[stored.index])
  }

  predicate InOrder(a: Stored, b: Stored) {
    && AtOrBefore(a.checkpoint.state, b.checkpoint.state)
    && a.checkpoint.eventSequence < b.checkpoint.eventSequence
    && a.checkpoint.fence <= b.checkpoint.fence
  }

  ghost predicate SavedOk(log: seq<RunEvent>, track: Track)
    requires |log| == |track.writers|
  {
    && (forall k :: 0 <= k < |track.saved| ==> StoredOk(log, track, track.saved[k]))
    && (forall j, k :: 0 <= j < k < |track.saved| ==> InOrder(track.saved[j], track.saved[k]))
  }

  /** Once started, an attempt has read a checkpoint at least as far as this one. */
  ghost predicate CaughtUp(att: Attempt, stored: Stored) {
    att.started ==> att.loaded.Some? && AtOrBefore(stored.checkpoint.state, att.loaded.value)
  }

  /** Whoever started caught up with every checkpoint stored under an older fence. */
  ghost predicate LoadedOk(track: Track) {
    forall f, k :: 1 <= f <= |track.attempts| && 0 <= k < |track.saved| && track.saved[k].checkpoint.fence < f
                   ==> CaughtUp(AttemptOf(track, f), track.saved[k])
  }

  /** While the current attempt saves, its event is the latest and no checkpoint has reached it. */
  ghost predicate CurrentOk(log: seq<RunEvent>, track: Track) {
    track.attempts != [] && AttemptOf(track, |track.attempts|).hand.Saving? ==>
      var sequence := AttemptOf(track, |track.attempts|).hand.sequence;
      && sequence == |log|
      && forall k :: 0 <= k < |track.saved| ==> track.saved[k].checkpoint.eventSequence < sequence
  }

  ghost predicate LatestOk(entry: Entry, saved: seq<Stored>) {
    entry.checkpoint == if saved == [] then None else Some(saved[|saved| - 1].checkpoint)
  }

  ghost predicate AttemptsOk(limits: Limits, id: string, request: RunRequest, log: seq<RunEvent>, track: Track)
    requires |log| == |track.writers|
  {
    forall f :: 1 <= f <= |track.attempts| ==> AttemptOk(limits, id, request, log, track.writers, f, AttemptOf(track, f))
  }

  ghost predicate CheckpointsOk(entry: Entry, track: Track)
    requires |entry.log| == |track.writers|
  {
    && SavedOk(entry.log, track)
    && LoadedOk(track)
    && CurrentOk(entry.log, track)
    && LatestOk(entry, track.saved)
  }

  ghost predicate TrackOk(limits: Limits, id: string, entry: Entry, track: Track) {
    && |track.attempts| == entry.record.fence
    && |track.writers| == |entry.log|
    && AttemptsOk(limits, id, RequestFrom(entry.record), entry.log, track)
    && LogOk(entry.record.status, entry.log)
    && WritersOk(track.writers, entry.record.fence)
    && CheckpointsOk(entry, track)
  }

  ghost predicate TracksOk(limits: Limits, s: System) {
    && s.tracks.Keys == s.repo.runs.Keys
    && forall id :: id in s.repo.runs ==> TrackOk(limits, id, s.repo.runs[id], s.tracks[id])
  }

  ghost predicate SystemOk(limits: Limits, s: System) {
    Store.Valid(s.repo) && TracksOk(limits, s)
  }

  // Steps that leave the log alone

  /** An attempt's own bookkeeping: same engine call, and no new save in its hands. */
  ghost predicate Bookkept(att: Attempt, att': Attempt) {
    && att'.lease == att.lease && att'.started == att.started
    && att'.loaded == att.loaded && att'.trace == att.trace
    && att.written <= att'.written
    && (att'.hand.Saving? ==> att'.hand == att.hand && att'.written == att.written)
  }

  lemma BookkeepingKeepsStored(log: seq<RunEvent>, track: Track, fence: nat, att': Attempt)
    requires |log| == |track.writers| && SavedOk(log, track)
    requires 1 <= fence <= |track.attempts| && Bookkept(AttemptOf(track, fence), att') && att'.written <= |att'.trace|
    ensures SavedOk(log, WithAttempt(track, fence, att'))
  {
    var track' := WithAttempt(track, fence, att');
    forall k | 0 <= k < |track'.saved|
      ensures StoredOk(log, track', track'.saved[k])
    {
      assert StoredOk(log, track, track.saved[k]);
    }
  }

  lemma BookkeepingKeepsLoaded(log: seq<RunEvent>, track: Track, fence: nat, att': Attempt)
    requires LoadedOk(track) && CurrentOk(log, track)
    requires 1 <= fence <= |track.attempts| && Bookkept(AttemptOf(track, fence), att')
    ensures LoadedOk(WithAttempt(track, fence, att')) && CurrentOk(log, WithAttempt(track, fence, att'))
  {
    var track' := WithAttempt(track, fence, att');
    forall f, k | 1 <= f <= |track'.attempts| && 0 <= k < |track'.saved| && track'.saved[k].checkpoint.fence < f
      ensures CaughtUp(AttemptOf(track', f), track'.saved[k])
    {
      assert CaughtUp(AttemptOf(track, f), track.saved[k]);
    }
  }

  lemma BookkeepingKeepsCheckpoints(entry: Entry, track: Track, entry': Entry, fence: nat, att': Attempt)
    requires |entry.log| == |track.writers| && CheckpointsOk(entry, track) && SameRun(entry, entry')
    requires 1 <= fence <= |track.attempts| && Bookkept(AttemptOf(track, fence), att') && att'.written <= |att'.trace|
    ensures CheckpointsOk(entry', WithAttempt(track, fence, att'))
  {
    BookkeepingKeepsStored(entry.log, track, fence, att');
    BookkeepingKeepsLoaded(entry.log, track, fence, att');
  }

  lemma BookkeepingKeepsAttempts(limits: Limits, id: string, request: RunRequest, log: seq<RunEvent>, track: Track,
                                 fence: nat, att': Attempt)
    requires |log| == |track.writers| && AttemptsOk(limits, id, request, log, track)
    requires 1 <= fence <= |track.attempts|
    requires AttemptOk(limits, id, request, log, track.writers, fence, att')
    ensures AttemptsOk(limits, id, request, log, WithAttempt(track, fence, att'))
  {
    var track' := WithAttempt(track, fence, att');
    forall f | 1 <= f <= |track'.attempts|
      ensures AttemptOk(limits, id, request, log, track'.writers, f, AttemptOf(track', f))
    {
      assert AttemptOk(limits, id, request, log, track.writers, f, AttemptOf(track, f));
    }
  }

  /** The record may change in its lease times only. */
  ghost predicate SameRun(entry: Entry, entry': Entry) {
    && entry'.log == entry.log && entry'.checkpoint == entry.checkpoint
    && RequestFrom(entry'.record) == RequestFrom(entry.record)
    && entry'.record.fence == entry.record.fence && entry'.record.status == entry.record.status
  }

  lemma BookkeepingKeepsTrack(limits: Limits, id: string, entry: Entry, track: Track, entry': Entry, fence: nat, att': Attempt)
    requires TrackOk(limits, id, entry, track) && SameRun(entry, entry')
    requires 1 <= fence <= |track.attempts| && Bookkept(AttemptOf(track, fence), att')
    requires AttemptOk(limits, id, RequestFrom(entry.record), entry.log, track.writers, fence, att')
    ensures TrackOk(limits, id, entry', WithAttempt(track, fence, att'))
  {
    BookkeepingKeepsAttempts(limits, id, RequestFrom(entry.record), entry.log, track, fence, att');
    BookkeepingKeepsCheckpoints(entry, track, entry', fence, att');
  }

  lemma TakenOk(limits: Limits, id: string, request: RunRequest, log: seq<RunEvent>, writers: seq<nat>, fence: nat, att: Attempt)
    requires |log| == |writers| && AttemptOk(limits, id, request, log, writers, fence, att)
    requires att.hand.Idle? && att.written < att.produced
    ensures AttemptOk(limits, id, request, log, writers, fence, Taken(att)) && Bookkept(att, Taken(att))
  {
  }
}
