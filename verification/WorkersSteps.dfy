/** Every step of the system keeps the invariant. */
module WorkersSteps {
  import opened Domain
  import opened Engine
  import opened EngineInvariants
  import opened Store
  import opened Workers
  import opened WorkersInvariant

  // Moves that only keep the attempt's books

  lemma ProducedOk(limits: Limits, id: string, request: RunRequest, log: seq<RunEvent>, writers: seq<nat>, fence: nat, att: Attempt)
    requires |log| == |writers| && AttemptOk(limits, id, request, log, writers, fence, att)
    requires att.produced < |att.trace|
    ensures AttemptOk(limits, id, request, log, writers, fence, Produced(att)) && Bookkept(att, Produced(att))
  {
  }

  lemma StoppedOk(limits: Limits, id: string, request: RunRequest, log: seq<RunEvent>, writers: seq<nat>, fence: nat, att: Attempt)
    requires |log| == |writers| && AttemptOk(limits, id, request, log, writers, fence, att)
    ensures AttemptOk(limits, id, request, log, writers, fence, att.(engineUp := false))
    ensures Bookkept(att, att.(engineUp := false))
  {
  }

  lemma LeftOk(limits: Limits, id: string, request: RunRequest, log: seq<RunEvent>, writers: seq<nat>, fence: nat, att: Attempt)
    requires |log| == |writers| && AttemptOk(limits, id, request, log, writers, fence, att)
    ensures AttemptOk(limits, id, request, log, writers, fence, Left(att))
    ensures Bookkept(att, Left(att))
  {
  }

  lemma AttemptsApply(limits: Limits, id: string, entry: Entry, track: Track, fence: nat)
    requires TrackOk(limits, id, entry, track) && 1 <= fence <= |track.attempts|
    ensures |entry.log| == |track.writers|
    ensures AttemptOk(limits, id, RequestFrom(entry.record), entry.log, track.writers, fence, AttemptOf(track, fence))
  {
  }

  lemma LeavingKeepsTrack(limits: Limits, id: string, entry: Entry, track: Track, fence: nat)
    requires TrackOk(limits, id, entry, track) && 1 <= fence <= |track.attempts|
    ensures TrackOk(limits, id, entry, WithAttempt(track, fence, Left(AttemptOf(track, fence))))
  {
    AttemptsApply(limits, id, entry, track, fence);
    LeftOk(limits, id, RequestFrom(entry.record), entry.log, track.writers, fence, AttemptOf(track, fence));
    BookkeepingKeepsTrack(limits, id, entry, track, entry, fence, Left(AttemptOf(track, fence)));
  }

  lemma BookMoveKeepsTrack(limits: Limits, id: string, entry: Entry, track: Track, move: Move)
    requires TrackOk(limits, id, entry, track) && CanMove(track, move)
    requires move.Produce? || move.StopEngine? || move.Take?
    ensures TrackOk(limits, id, Moved(entry, track, move).0, Moved(entry, track, move).1)
  {
    var fence := move.fence;
    var att, request := AttemptOf(track, fence), RequestFrom(entry.record);
    AttemptsApply(limits, id, entry, track, fence);
    match move {
      case Produce(_) =>
        ProducedOk(limits, id, request, entry.log, track.writers, fence, att);
        BookkeepingKeepsTrack(limits, id, entry, track, entry, fence, Produced(att));
      case StopEngine(_) =>
        StoppedOk(limits, id, request, entry.log, track.writers, fence, att);
        BookkeepingKeepsTrack(limits, id, entry, track, entry, fence, att.(engineUp := false));
      case Take(_) =>
        TakenOk(limits, id, request, entry.log, track.writers, fence, att);
        BookkeepingKeepsTrack(limits, id, entry, track, entry, fence, Taken(att));
    }
  }

  lemma SameRunKeepsTrack(limits: Limits, id: string, entry: Entry, track: Track, entry': Entry)
    requires TrackOk(limits, id, entry, track) && SameRun(entry, entry')
    ensures TrackOk(limits, id, entry', track)
  {
  }

  lemma HeartbeatKeepsTrack(limits: Limits, id: string, entry: Entry, track: Track, fence: nat, now: Time, ttl: int)
    requires TrackOk(limits, id, entry, track) && CanMove(track, Heartbeat(fence, now, ttl))
    ensures TrackOk(limits, id, HeartbeatNow(entry, track, fence, now, ttl).0, HeartbeatNow(entry, track, fence, now, ttl).1)
  {
    if Holds(entry.record, AttemptOf(track, fence).lease.leaseOwner, fence, now) {
      SameRunKeepsTrack(limits, id, entry, track, Renewed(entry, now, ttl));
    }
  }

  // Writing to the log

  /** The attempt that wrote has now sent one action more. */
  lemma WriterOk(limits: Limits, id: string, request: RunRequest, log: seq<RunEvent>, writers: seq<nat>, fence: nat,
                 att: Attempt, event: RunEvent, hand: Hand)
    requires |log| == |writers| && AttemptOk(limits, id, request, log, writers, fence, att)
    requires att.hand.Writing?
    requires var action := att.trace[att.written];
             && event.event == action.event && event.payload == action.payload
             && (hand.Saving? ==> hand == Saving(hand.state, |log| + 1) && action.checkpoint == Some(hand.state))
             && !hand.Writing?
    ensures AttemptOk(limits, id, request, log + [event], writers + [fence], fence, Written(att, hand))
  {
    PartGrows(log, writers, event, fence, fence);
  }

  lemma OtherOk(limits: Limits, id: string, request: RunRequest, log: seq<RunEvent>, writers: seq<nat>, fence: nat,
                att: Attempt, event: RunEvent, writer: nat)
    requires |log| == |writers| && AttemptOk(limits, id, request, log, writers, fence, att) && writer != fence
    ensures AttemptOk(limits, id, request, log + [event], writers + [writer], fence, att)
  {
    PartGrows(log, writers, event, writer, fence);
  }

  lemma WritingKeepsAttempts(limits: Limits, id: string, request: RunRequest, log: seq<RunEvent>, track: Track, fence: nat,
                             event: RunEvent, hand: Hand)
    requires |log| == |track.writers| && AttemptsOk(limits, id, request, log, track)
    requires 1 <= fence <= |track.attempts|
    requires var att := AttemptOf(track, fence);
             AttemptOk(limits, id, request, log + [event], track.writers + [fence], fence, Written(att, hand))
    ensures AttemptsOk(limits, id, request, log + [event],
                       WithAttempt(track, fence, Written(AttemptOf(track, fence), hand)).(writers := track.writers + [fence]))
  {
    var track' := WithAttempt(track, fence, Written(AttemptOf(track, fence), hand)).(writers := track.writers + [fence]);
    forall f | 1 <= f <= |track'.attempts|
      ensures AttemptOk(limits, id, request, log + [event], track'.writers, f, AttemptOf(track', f))
    {
      if f != fence {
        OtherOk(limits, id, request, log, track.writers, f, AttemptOf(track, f), event, fence);
      }
    }
  }

  lemma WritingKeepsStored(log: seq<RunEvent>, track: Track, fence: nat, event: RunEvent, hand: Hand)
    requires |log| == |track.writers| && SavedOk(log, track)
    requires 1 <= fence <= |track.attempts| && AttemptOf(track, fence).written < |AttemptOf(track, fence).trace|
    ensures SavedOk(log + [event],
                    WithAttempt(track, fence, Written(AttemptOf(track, fence), hand)).(writers := track.writers + [fence]))
  {
    var track' := WithAttempt(track, fence, Written(AttemptOf(track, fence), hand)).(writers := track.writers + [fence]);
    forall k | 0 <= k < |track'.saved|
      ensures StoredOk(log + [event], track', track'.saved[k])
    {
      assert StoredOk(log, track, track.saved[k]);
    }
  }

  lemma WritingKeepsLoaded(log: seq<RunEvent>, track: Track, fence: nat, event: RunEvent, hand: Hand)
    requires |log| == |track.writers| && SavedOk(log, track) && LoadedOk(track)
    requires fence == |track.attempts| >= 1 && (hand.Saving? ==> hand.sequence == |log| + 1)
    ensures var track' := WithAttempt(track, fence, Written(AttemptOf(track, fence), hand)).(writers := track.writers + [fence]);
            LoadedOk(track') && CurrentOk(log + [event], track')
  {
    var track' := WithAttempt(track, fence, Written(AttemptOf(track, fence), hand)).(writers := track.writers + [fence]);
    forall f, k | 1 <= f <= |track'.attempts| && 0 <= k < |track'.saved| && track'.saved[k].checkpoint.fence < f
      ensures CaughtUp(AttemptOf(track', f), track'.saved[k])
    {
      assert CaughtUp(AttemptOf(track, f), track.saved[k]);
    }
    forall k | 0 <= k < |track'.saved|
      ensures track'.saved[k].checkpoint.eventSequence < |log| + 1
    {
      assert StoredOk(log, track, track.saved[k]);
    }
  }

  lemma LogGrows(status: RunStatus, status': RunStatus, log: seq<RunEvent>, writers: seq<nat>, fence: nat, event: RunEvent)
    requires LogOk(status, log) && WritersOk(writers, fence) && 1 <= fence
    requires !IsTerminal(status) && event.event != RunCreated && (TerminalEvent(event.event) <==> IsTerminal(status'))
    ensures LogOk(status', log + [event]) && WritersOk(writers + [fence], fence)
  {
  }

  /** The current attempt adds one event to the log. */
  lemma WritingKeepsTrack(limits: Limits, id: string, entry: Entry, track: Track, fence: nat, entry': Entry, event: RunEvent, hand: Hand)
    requires TrackOk(limits, id, entry, track)
    requires fence == |track.attempts| >= 1 && fence == entry.record.fence && !IsTerminal(entry.record.status)
    requires entry'.log == entry.log + [event] && entry'.checkpoint == entry.checkpoint
    requires RequestFrom(entry'.record) == RequestFrom(entry.record) && entry'.record.fence == entry.record.fence
    requires AttemptOf(track, fence).hand.Writing?
    requires var action := AttemptOf(track, fence).trace[AttemptOf(track, fence).written];
             && action.Emit? && event.event == action.event && event.payload == action.payload
             && (hand.Saving? ==> hand.sequence == |entry.log| + 1 && action.checkpoint == Some(hand.state))
             && !hand.Writing?
             && action.event != RunCreated
             && (TerminalEvent(event.event) <==> IsTerminal(entry'.record.status))
    ensures TrackOk(limits, id, entry',
                    WithAttempt(track, fence, Written(AttemptOf(track, fence), hand)).(writers := track.writers + [fence]))
  {
    var att, request := AttemptOf(track, fence), RequestFrom(entry.record);
    AttemptsApply(limits, id, entry, track, fence);
    WriterOk(limits, id, request, entry.log, track.writers, fence, att, event, hand);
    WritingKeepsAttempts(limits, id, request, entry.log, track, fence, event, hand);
    WritingKeepsStored(entry.log, track, fence, event, hand);
    WritingKeepsLoaded(entry.log, track, fence, event, hand);
    LogGrows(entry.record.status, entry'.record.status, entry.log, track.writers, fence, event);
  }

  lemma WriteKeepsTrack(limits: Limits, id: string, entry: Entry, track: Track, fence: nat, now: Time)
    requires TrackOk(limits, id, entry, track) && EntryOk(id, entry) && CanMove(track, Write(fence, now))
    ensures TrackOk(limits, id, Wrote(entry, track, fence, now).0, Wrote(entry, track, fence, now).1)
  {
    var att := AttemptOf(track, fence);
    AttemptsApply(limits, id, entry, track, fence);
    var action := att.trace[att.written];
    if !Holds(entry.record, att.lease.leaseOwner, fence, now) {
      LeavingKeepsTrack(limits, id, entry, track, fence);
    } else if TerminalEvent(action.event) {
      assert Announced(action);
      var result := action.payload.result;
      TerminalTestsAgree(result.status, action.event);
      WritingKeepsTrack(limits, id, entry, track, fence, Finished(entry, result, action.event, now),
                        NextEvent(entry.record, action.event, ResultPayload(result), now), Hand.Gone(false));
    } else {
      var entry' := Appended(entry, action.event, action.payload, now);
      var hand := if action.checkpoint.Some? then Saving(action.checkpoint.value, entry'.record.lastEventSeq) else Idle;
      WritingKeepsTrack(limits, id, entry, track, fence, entry', NextEvent(entry.record, action.event, action.payload, now), hand);
    }
  }
}
