/** Saving, leasing, loading and creating keep the invariant, and so does every step of the system. */
module WorkersCheckpoints {
  import opened Domain
  import opened EngineState
  import opened Engine
  import opened EngineInvariants
  import opened Transcript
  import opened EngineTrace
  import opened Store
  import opened Workers
  import opened WorkersInvariant
  import opened WorkersSteps

  // Saving

  /** What the current attempt saves lies behind everything saved before, by any attempt. */
  lemma SavesForward(limits: Limits, request: RunRequest, log: seq<RunEvent>, track: Track, k: nat)
    requires |log| == |track.writers| && track.attempts != [] && k < |track.saved|
    requires var fence := |track.attempts|; AttemptOk(limits, AttemptOf(track, fence).lease.id, request, log, track.writers, fence, AttemptOf(track, fence))
    requires AttemptOf(track, |track.attempts|).hand.Saving?
    requires StoredOk(log, track, track.saved[k]) && LoadedOk(track)
    ensures AtOrBefore(track.saved[k].checkpoint.state, AttemptOf(track, |track.attempts|).hand.state)
  {
    var fence := |track.attempts|;
    var att, stored := AttemptOf(track, fence), track.saved[k];
    var last := att.trace[att.written - 1];
    assert StateIn(last) == Some(att.hand.state);
    if stored.checkpoint.fence == fence {
      assert StateIn(att.trace[stored.index]) == Some(stored.checkpoint.state);
    } else {
      assert CaughtUp(att, stored);
      AtOrBeforeTransitive(stored.checkpoint.state, att.loaded.value, att.hand.state);
    }
  }

  lemma SavingKeepsSaved(limits: Limits, request: RunRequest, log: seq<RunEvent>, track: Track, now: Time)
    requires |log| == |track.writers| && track.attempts != []
    requires SavedOk(log, track) && LoadedOk(track) && CurrentOk(log, track)
    requires var fence := |track.attempts|; AttemptOk(limits, AttemptOf(track, fence).lease.id, request, log, track.writers, fence, AttemptOf(track, fence))
    requires AttemptOf(track, |track.attempts|).hand.Saving?
    ensures var fence := |track.attempts|;
            var att := AttemptOf(track, fence);
            SavedOk(log, WithAttempt(track, fence, att.(hand := Idle)).(
                    saved := track.saved + [Stored(CheckpointIn(att, fence, now), att.written - 1)]))
  {
    var fence := |track.attempts|;
    var att := AttemptOf(track, fence);
    var stored := Stored(CheckpointIn(att, fence, now), att.written - 1);
    var track' := WithAttempt(track, fence, att.(hand := Idle)).(saved := track.saved + [stored]);
    forall k | 0 <= k < |track'.saved|
      ensures StoredOk(log, track', track'.saved[k])
    {
      if k < |track.saved| {
        assert StoredOk(log, track, track.saved[k]);
      }
    }
    forall k | 0 <= k < |track.saved|
      ensures InOrder(track.saved[k], stored)
    {
      assert StoredOk(log, track, track.saved[k]);
      SavesForward(limits, request, log, track, k);
    }
  }

  lemma SavingKeepsLoaded(track: Track, att: Attempt, stored: Stored)
    requires LoadedOk(track) && track.attempts != [] && stored.checkpoint.fence == |track.attempts|
    requires att == AttemptOf(track, |track.attempts|)
    ensures LoadedOk(WithAttempt(track, |track.attempts|, att.(hand := Idle)).(saved := track.saved + [stored]))
  {
    var track' := WithAttempt(track, |track.attempts|, att.(hand := Idle)).(saved := track.saved + [stored]);
    forall f, k | 1 <= f <= |track'.attempts| && 0 <= k < |track'.saved| && track'.saved[k].checkpoint.fence < f
      ensures CaughtUp(AttemptOf(track', f), track'.saved[k])
    {
      assert CaughtUp(AttemptOf(track, f), track.saved[k]);
    }
  }

  lemma IdleOk(limits: Limits, id: string, request: RunRequest, log: seq<RunEvent>, writers: seq<nat>, fence: nat, att: Attempt)
    requires |log| == |writers| && AttemptOk(limits, id, request, log, writers, fence, att)
    ensures AttemptOk(limits, id, request, log, writers, fence, att.(hand := Idle))
  {
  }

  lemma SavingKeepsAttempts(limits: Limits, id: string, request: RunRequest, log: seq<RunEvent>, track: Track, saved: seq<Stored>)
    requires |log| == |track.writers| && AttemptsOk(limits, id, request, log, track)
    ensures AttemptsOk(limits, id, request, log, track.(saved := saved))
  {
    forall f | 1 <= f <= |track.attempts|
      ensures AttemptOk(limits, id, request, log, track.writers, f, AttemptOf(track.(saved := saved), f))
    {
      assert AttemptOk(limits, id, request, log, track.writers, f, AttemptOf(track, f));
    }
  }

  lemma SavingKeepsTrack(limits: Limits, id: string, entry: Entry, track: Track, now: Time)
    requires TrackOk(limits, id, entry, track) && track.attempts != []
    requires AttemptOf(track, |track.attempts|).hand.Saving? && 0 < AttemptOf(track, |track.attempts|).written
    ensures var fence := |track.attempts|;
            var att := AttemptOf(track, fence);
            var checkpoint := CheckpointIn(att, fence, now);
            TrackOk(limits, id, Store.Saved(entry, checkpoint),
                    WithAttempt(track, fence, att.(hand := Idle)).(saved := track.saved + [Stored(checkpoint, att.written - 1)]))
  {
    var fence, request := |track.attempts|, RequestFrom(entry.record);
    var att := AttemptOf(track, fence);
    var stored := Stored(CheckpointIn(att, fence, now), att.written - 1);
    AttemptsApply(limits, id, entry, track, fence);
    IdleOk(limits, id, request, entry.log, track.writers, fence, att);
    BookkeepingKeepsAttempts(limits, id, request, entry.log, track, fence, att.(hand := Idle));
    SavingKeepsAttempts(limits, id, request, entry.log, WithAttempt(track, fence, att.(hand := Idle)), track.saved + [stored]);
    SavingKeepsSaved(limits, request, entry.log, track, now);
    SavingKeepsLoaded(track, att, stored);
  }

  /** The store refuses a worker's checkpoint only for its lease. */
  lemma SaveNotRefused(limits: Limits, id: string, entry: Entry, track: Track, fence: nat, now: Time)
    requires TrackOk(limits, id, entry, track) && EntryOk(id, entry) && CanMove(track, Move.Save(fence, now))
    requires Holds(entry.record, AttemptOf(track, fence).lease.leaseOwner, fence, now)
    ensures SaveError(entry, CheckpointIn(AttemptOf(track, fence), fence, now)).None?
  {
    assert fence == |track.attempts|;
  }

  lemma SaveKeepsTrack(limits: Limits, id: string, entry: Entry, track: Track, fence: nat, now: Time)
    requires TrackOk(limits, id, entry, track) && EntryOk(id, entry) && CanMove(track, Move.Save(fence, now))
    ensures TrackOk(limits, id, SavedNow(entry, track, fence, now).0, SavedNow(entry, track, fence, now).1)
  {
    if Holds(entry.record, AttemptOf(track, fence).lease.leaseOwner, fence, now) {
      SaveNotRefused(limits, id, entry, track, fence, now);
      SavingKeepsTrack(limits, id, entry, track, now);
    } else {
      LeavingKeepsTrack(limits, id, entry, track, fence);
    }
  }

  // Leasing

  lemma FreshAttemptOk(limits: Limits, id: string, request: RunRequest, log: seq<RunEvent>, writers: seq<nat>, fence: nat, lease: RunRecord)
    requires |log| == |writers| && WritersOk(writers, fence) && SnapshotOk(id, request, fence + 1, lease)
    ensures AttemptOk(limits, id, request, log, writers, fence + 1, NewAttempt(lease))
  {
    PartEmpty(log, writers, fence + 1);
  }

  lemma LeasingKeepsAttempts(limits: Limits, id: string, request: RunRequest, log: seq<RunEvent>, track: Track, lease: RunRecord)
    requires |log| == |track.writers| && AttemptsOk(limits, id, request, log, track)
    requires WritersOk(track.writers, |track.attempts|) && SnapshotOk(id, request, |track.attempts| + 1, lease)
    ensures AttemptsOk(limits, id, request, log, LeasedTrack(track, lease))
  {
    var track' := LeasedTrack(track, lease);
    FreshAttemptOk(limits, id, request, log, track.writers, |track.attempts|, lease);
    forall f | 1 <= f <= |track'.attempts|
      ensures AttemptOk(limits, id, request, log, track'.writers, f, AttemptOf(track', f))
    {
      if f <= |track.attempts| {
        assert AttemptOk(limits, id, request, log, track.writers, f, AttemptOf(track, f));
      }
    }
  }

  lemma LeasingKeepsCheckpoints(entry: Entry, track: Track, entry': Entry, lease: RunRecord)
    requires |entry.log| == |track.writers| && CheckpointsOk(entry, track)
    requires entry'.log == entry.log && entry'.checkpoint == entry.checkpoint
    ensures CheckpointsOk(entry', LeasedTrack(track, lease))
  {
    var track' := LeasedTrack(track, lease);
    forall k | 0 <= k < |track'.saved|
      ensures StoredOk(entry.log, track', track'.saved[k])
    {
      assert StoredOk(entry.log, track, track.saved[k]);
    }
    forall f, k | 1 <= f <= |track'.attempts| && 0 <= k < |track'.saved| && track'.saved[k].checkpoint.fence < f
      ensures CaughtUp(AttemptOf(track', f), track'.saved[k])
    {
      assert f <= |track.attempts| ==> CaughtUp(AttemptOf(track, f), track.saved[k]);
    }
  }

  lemma LeasingKeepsLog(id: string, entry: Entry, writers: seq<nat>, workerId: string, now: Time, ttl: int)
    requires EntryOk(id, entry) && workerId != "" && Leasable(entry.record, now)
    requires LogOk(entry.record.status, entry.log) && WritersOk(writers, entry.record.fence)
    ensures var entry' := Leased(entry, workerId, now, ttl);
            && LogOk(entry'.record.status, entry'.log) && WritersOk(writers, entry'.record.fence)
            && SnapshotOk(id, RequestFrom(entry.record), entry.record.fence + 1, entry'.record)
            && RequestFrom(entry'.record) == RequestFrom(entry.record)
  {
  }

  lemma LeaseKeepsTrack(limits: Limits, id: string, entry: Entry, track: Track, workerId: string, now: Time, ttl: int)
    requires TrackOk(limits, id, entry, track) && EntryOk(id, entry) && workerId != "" && Leasable(entry.record, now)
    ensures var entry' := Leased(entry, workerId, now, ttl);
            TrackOk(limits, id, entry', LeasedTrack(track, entry'.record))
  {
    var entry', request := Leased(entry, workerId, now, ttl), RequestFrom(entry.record);
    LeasingKeepsLog(id, entry, track.writers, workerId, now, ttl);
    LeasingKeepsAttempts(limits, id, request, entry.log, track, entry'.record);
    LeasingKeepsCheckpoints(entry, track, entry', entry'.record);
  }

  // Loading

  /** The latest checkpoint is a state its attempt's engine made, so it is faithful. */
  lemma LoadedFaithful(limits: Limits, id: string, entry: Entry, track: Track)
    requires TrackOk(limits, id, entry, track)
    ensures LoadedState(entry).Some? ==> Faithful(RequestFrom(entry.record), limits, LoadedState(entry).value)
  {
    if track.saved != [] {
      var stored := track.saved[|track.saved| - 1];
      assert StoredOk(entry.log, track, stored);
      AttemptsApply(limits, id, entry, track, stored.checkpoint.fence);
      assert StateIn(AttemptOf(track, stored.checkpoint.fence).trace[stored.index]).Some?;
    }
  }

  lemma LoadingKeepsStored(log: seq<RunEvent>, track: Track, fence: nat, att': Attempt)
    requires |log| == |track.writers| && SavedOk(log, track)
    requires 1 <= fence <= |track.attempts| && AttemptOf(track, fence).written == 0
    ensures SavedOk(log, WithAttempt(track, fence, att'))
  {
    var track' := WithAttempt(track, fence, att');
    forall k | 0 <= k < |track'.saved|
      ensures StoredOk(log, track', track'.saved[k])
    {
      assert StoredOk(log, track, track.saved[k]);
    }
  }

  lemma LoadingKeepsLoaded(entry: Entry, track: Track, fence: nat, att': Attempt)
    requires |entry.log| == |track.writers| && SavedOk(entry.log, track) && LatestOk(entry, track.saved)
    requires LoadedOk(track) && CurrentOk(entry.log, track)
    requires 1 <= fence <= |track.attempts| && att'.loaded == LoadedState(entry) && att'.hand.Idle?
    ensures LoadedOk(WithAttempt(track, fence, att')) && CurrentOk(entry.log, WithAttempt(track, fence, att'))
  {
    var track' := WithAttempt(track, fence, att');
    forall f, k | 1 <= f <= |track'.attempts| && 0 <= k < |track'.saved| && track'.saved[k].checkpoint.fence < f
      ensures CaughtUp(AttemptOf(track', f), track'.saved[k])
    {
      if f == fence {
        assert k < |track.saved| - 1 ==> InOrder(track.saved[k], track.saved[|track.saved| - 1]);
      } else {
        assert CaughtUp(AttemptOf(track, f), track.saved[k]);
      }
    }
  }

  lemma StartedOk(limits: Limits, id: string, request: RunRequest, log: seq<RunEvent>, writers: seq<nat>, fence: nat, att: Attempt,
                  loaded: Option<ExecutionState>, trace: seq<Action>)
    requires |log| == |writers| && AttemptOk(limits, id, request, log, writers, fence, att)
    requires !att.started && !att.hand.Gone? && FromEngine(request, limits, loaded, trace)
    ensures AttemptOk(limits, id, request, log, writers, fence, att.(started := true, loaded := loaded, trace := trace))
    ensures att.written == 0 && att.hand.Idle?
  {
  }

  lemma LoadKeepsTrack(limits: Limits, id: string, entry: Entry, track: Track, fence: nat, trace: seq<Action>)
    requires TrackOk(limits, id, entry, track) && 1 <= fence <= |track.attempts|
    requires !AttemptOf(track, fence).started && !AttemptOf(track, fence).hand.Gone?
    requires FromEngine(RequestFrom(entry.record), limits, LoadedState(entry), trace)
    ensures TrackOk(limits, id, entry, LoadedTrack(entry, track, fence, trace))
  {
    var att, request := AttemptOf(track, fence), RequestFrom(entry.record);
    var att' := att.(started := true, loaded := LoadedState(entry), trace := trace);
    AttemptsApply(limits, id, entry, track, fence);
    StartedOk(limits, id, request, entry.log, track.writers, fence, att, LoadedState(entry), trace);
    BookkeepingKeepsAttempts(limits, id, request, entry.log, track, fence, att');
    LoadingKeepsStored(entry.log, track, fence, att');
    LoadingKeepsLoaded(entry, track, fence, att');
  }
}
