/** The in-memory repository: four maps updated in place, proved against the store value. */
module MemoryRepository {
  import opened Domain
  import opened Store

  function Joined(runs: map<string, RunRecord>, events: map<string, seq<RunEvent>>, checkpoints: map<string, Checkpoint>)
    : map<string, Entry>
    requires runs.Keys == events.Keys
  {
    map id | id in runs :: Entry(runs[id], events[id], if id in checkpoints then Some(checkpoints[id]) else None)
  }

  /** Storing an entry's record and log stores the entry. */
  lemma JoinedUpdate(runs: map<string, RunRecord>, events: map<string, seq<RunEvent>>, checkpoints: map<string, Checkpoint>,
                     id: string, entry: Entry)
    requires runs.Keys == events.Keys
    requires entry.checkpoint == if id in checkpoints then Some(checkpoints[id]) else None
    ensures Joined(runs[id := entry.record], events[id := entry.log], checkpoints) == Joined(runs, events, checkpoints)[id := entry]
  {
  }

  lemma JoinedRecord(runs: map<string, RunRecord>, events: map<string, seq<RunEvent>>, checkpoints: map<string, Checkpoint>,
                     id: string, entry: Entry)
    requires runs.Keys == events.Keys && id in runs
    requires entry == Joined(runs, events, checkpoints)[id].(record := entry.record)
    ensures Joined(runs[id := entry.record], events, checkpoints) == Joined(runs, events, checkpoints)[id := entry]
  {
  }

  lemma JoinedCheckpoint(runs: map<string, RunRecord>, events: map<string, seq<RunEvent>>, checkpoints: map<string, Checkpoint>,
                         id: string, checkpoint: Checkpoint)
    requires runs.Keys == events.Keys && id in runs
    ensures Joined(runs, events, checkpoints[id := checkpoint]) ==
            Joined(runs, events, checkpoints)[id := Joined(runs, events, checkpoints)[id].(checkpoint := Some(checkpoint))]
  {
  }

  class Repository {
    var runs: map<string, RunRecord>
    var byIdempotency: map<string, string>
    var events: map<string, seq<RunEvent>>
    var checkpoints: map<string, Checkpoint>

    /** The four maps fit together; what runs, logs and checkpoints mean is the store's `Valid`. */
    ghost predicate Valid()
      reads this
    {
      && runs.Keys == events.Keys
      && checkpoints.Keys <= runs.Keys
      && (forall id :: id in runs ==> runs[id].id == id)
      && (forall key :: key in byIdempotency ==> byIdempotency[key] in runs)
    }

    /** The store value that the maps represent. */
    ghost function Value(): Repo
      requires Valid()
      reads this
    {
      Repo(Joined(runs, events, checkpoints), byIdempotency)
    }

    constructor ()
      ensures Valid() && Value() == EMPTY_REPO
    {
      runs, byIdempotency, events, checkpoints := map[], map[], map[], map[];
    }

    method CreateRun(request: RunRequest, now: Time) returns (answer: Result<(RunRecord, bool), StoreError>)
      requires Valid()
      modifies this
      ensures Valid()
      ensures (Value(), answer) == Store.CreateRun(old(Value()), request, now)
    {
      var hash := HashOf(request);
      var key := JoinedKey(request.tenantId, request.idempotencyKey);
      if key in byIdempotency {
        var existing := runs[byIdempotency[key]];
        if existing.requestHash != hash {
          return Err(IdempotencyConflict);
        }
        return Ok((existing, false));
      }
      if request.runId in runs {
        return Err(RunIdExists);
      }
      var record := NewRecord(request, now);
      JoinedUpdate(runs, events, checkpoints, record.id, NewEntry(request, now));
      runs := runs[record.id := record];
      byIdempotency := byIdempotency[key := record.id];
      events := events[record.id := [CreatedEvent(request, now)]];
      return Ok((record, true));
    }

    method GetRun(runId: string) returns (answer: Result<RunRecord, StoreError>)
      requires Valid()
      ensures answer == if runId in Value().runs then Ok(Value().runs[runId].record) else Err(NotFound)
    {
      if runId !in runs {
        return Err(NotFound);
      }
      return Ok(runs[runId]);
    }

    /** The leasable runs, in no particular order. */
    method Candidates(now: Time) returns (candidates: seq<RunRecord>)
      requires Valid()
      ensures forall i :: 0 <= i < |candidates| ==>
                candidates[i].id in runs && runs[candidates[i].id] == candidates[i] && Leasable(candidates[i], now)
      ensures forall id :: id in runs && Leasable(runs[id], now) ==> runs[id] in candidates
    {
      candidates := [];
      var rest := runs.Keys;
      while rest != {}
        invariant rest <= runs.Keys
        invariant forall i :: 0 <= i < |candidates| ==>
                    candidates[i].id in runs && runs[candidates[i].id] == candidates[i] && Leasable(candidates[i], now)
        invariant forall id :: id in runs && id !in rest && Leasable(runs[id], now) ==> runs[id] in candidates
        decreases |rest|
      {
        var id :| id in rest;
        if Leasable(runs[id], now) {
          candidates := candidates + [runs[id]];
        }
        rest := rest - {id};
      }
    }

    /** The candidate that sorts first. */
    method NextRun(now: Time) returns (next: Option<string>)
      requires Valid()
      ensures next.Some? ==> IsNext(Value(), next.value, now)
      ensures next.None? ==> forall id :: id in Value().runs ==> !Leasable(Value().runs[id].record, now)
    {
      var candidates := Candidates(now);
      if |candidates| == 0 {
        return None;
      }
      var first := First(candidates);
      return Some(candidates[first].id);
    }

    method LeaseNext(workerId: string, now: Time, ttl: int) returns (answer: Result<Lease, StoreError>)
      requires Valid()
      modifies this
      ensures Valid()
      ensures answer.Err? ==> Value() == old(Value())
      ensures answer.Err? ==>
                answer.error == if workerId == "" || ttl <= 0 then InvalidTransition else NoRunAvailable
      ensures answer == Err(NoRunAvailable) ==>
                forall id :: id in old(Value()).runs ==> !Leasable(old(Value()).runs[id].record, now)
      ensures answer.Ok? ==>
                var id := answer.value.run.id;
                && Enabled(old(Value()), Call.LeaseNext(id, workerId, now, ttl))
                && Value() == After(old(Value()), Call.LeaseNext(id, workerId, now, ttl))
                && answer.value == LeaseOf(Value().runs[id].record)
    {
      if workerId == "" || ttl <= 0 {
        return Err(InvalidTransition);
      }
      var next := NextRun(now);
      if next.None? {
        return Err(NoRunAvailable);
      }
      var id := next.value;
      var record := runs[id];
      record := record.(status := Running, leaseOwner := workerId, leaseUntil := now + ttl);
      record := record.(fence := record.fence + 1, attempt := record.attempt + 1, updatedAt := now);
      JoinedRecord(runs, events, checkpoints, id, Leased(Value().runs[id], workerId, now, ttl));
      runs := runs[id := record];
      return Ok(Lease(record, workerId, record.fence, record.attempt, record.leaseUntil));
    }

    /** The lease check shared by all writes. */
    method ValidLease(runId: string, workerId: string, fence: nat, now: Time) returns (answer: Result<RunRecord, StoreError>)
      requires Valid()
      ensures match LeaseCheck(Value(), runId, workerId, fence, now)
              case Some(error) => answer == Err(error)
              case None => runId in runs && answer == Ok(runs[runId])
    {
      if runId !in runs {
        return Err(NotFound);
      }
      var record := runs[runId];
      if workerId == "" || !record.status.Running? || record.leaseOwner != workerId || record.fence != fence ||
         record.leaseUntil <= now {
        return Err(LeaseLost);
      }
      return Ok(record);
    }

    method RenewLease(runId: string, workerId: string, fence: nat, now: Time, ttl: int)
      returns (answer: Result<Time, StoreError>)
      requires Valid()
      modifies this
      ensures Valid()
      ensures (Value(), answer) == Store.RenewLease(old(Value()), runId, workerId, fence, now, ttl)
    {
      var lease := ValidLease(runId, workerId, fence, now);
      if lease.Err? {
        return Err(lease.error);
      }
      if ttl <= 0 {
        return Err(InvalidTransition);
      }
      var record := lease.value.(leaseUntil := now + ttl, updatedAt := now);
      JoinedRecord(runs, events, checkpoints, runId, Renewed(Value().runs[runId], now, ttl));
      runs := runs[runId := record];
      return Ok(record.leaseUntil);
    }

    method AppendEvent(runId: string, workerId: string, fence: nat, event: EventType, payload: Payload, now: Time)
      returns (answer: Result<RunEvent, StoreError>)
      requires Valid()
      modifies this
      ensures Valid()
      ensures Value() == Store.AppendEvent(old(Value()), runId, workerId, fence, event, payload, now).0
      ensures answer == Store.AppendEvent(old(Value()), runId, workerId, fence, event, payload, now).1
    {
      var lease := ValidLease(runId, workerId, fence, now);
      if lease.Err? {
        return Err(lease.error);
      }
      var appended := NextEvent(lease.value, event, payload, now);
      var record := lease.value.(lastEventSeq := appended.sequence, updatedAt := now);
      ghost var entry := Appended(Value().runs[runId], event, payload, now);
      JoinedUpdate(runs, events, checkpoints, runId, entry);
      ghost var before := Value();
      runs := runs[runId := record];
      events := events[runId := events[runId] + [appended]];
      assert Value() == before.(runs := before.runs[runId := entry]);
      return Ok(appended);
    }

    method SaveCheckpoint(workerId: string, checkpoint: Checkpoint) returns (answer: Result<(), StoreError>)
      requires Valid()
      modifies this
      ensures Valid()
      ensures (Value(), answer) == Store.SaveCheckpoint(old(Value()), workerId, checkpoint)
    {
      var lease := ValidLease(checkpoint.runId, workerId, checkpoint.fence, checkpoint.createdAt);
      if lease.Err? {
        return Err(lease.error);
      }
      if checkpoint.eventSequence > lease.value.lastEventSeq {
        return Err(CheckpointAhead);
      }
      if checkpoint.runId in checkpoints && checkpoints[checkpoint.runId].eventSequence > checkpoint.eventSequence {
        return Err(StaleCheckpoint);
      }
      JoinedCheckpoint(runs, events, checkpoints, checkpoint.runId, checkpoint);
      checkpoints := checkpoints[checkpoint.runId := checkpoint];
      return Ok(());
    }

    method GetCheckpoint(runId: string) returns (answer: Result<Checkpoint, StoreError>)
      requires Valid()
      ensures answer == if runId in Value().runs && Value().runs[runId].checkpoint.Some?
                        then Ok(Value().runs[runId].checkpoint.value) else Err(NotFound)
    {
      if runId !in checkpoints {
        return Err(NotFound);
      }
      return Ok(checkpoints[runId]);
    }

    method FinishRun(runId: string, workerId: string, fence: nat, result: FinalResult, event: EventType, now: Time)
      returns (answer: Result<RunEvent, StoreError>)
      requires Valid()
      modifies this
      ensures Valid()
      ensures (Value(), answer) == Store.FinishRun(old(Value()), runId, workerId, fence, result, event, now)
    {
      if !ValidTerminalEvent(result, event) {
        return Err(InvalidTransition);
      }
      var lease := ValidLease(runId, workerId, fence, now);
      if lease.Err? {
        return Err(lease.error);
      }
      var appended := NextEvent(lease.value, event, ResultPayload(result), now);
      var record := lease.value.(status := result.status, lastEventSeq := appended.sequence);
      record := record.(finalResult := Some(result), leaseOwner := "", leaseUntil := ZERO_TIME, updatedAt := now);
      JoinedUpdate(runs, events, checkpoints, runId, Finished(Value().runs[runId], result, event, now));
      runs := runs[runId := record];
      events := events[runId := events[runId] + [appended]];
      return Ok(appended);
    }

    method ListEvents(runId: string, after: nat) returns (answer: Result<seq<RunEvent>, StoreError>)
      requires Valid()
      ensures answer == if runId in Value().runs then Ok(EventsAfter(Value().runs[runId].log, after)) else Err(NotFound)
    {
      if runId !in runs {
        return Err(NotFound);
      }
      var log := events[runId];
      var result := [];
      for i := 0 to |log|
        invariant result == EventsAfter(log[..i], after)
      {
        assert log[..i + 1][..i] == log[..i];
        if log[i].sequence > after {
          result := result + [log[i]];
        }
      }
      assert log[..|log|] == log;
      return Ok(result);
    }
  }

  /** The index of the candidate that sorts first. */
  method First(candidates: seq<RunRecord>) returns (first: nat)
    requires candidates != []
    requires forall i, j :: 0 <= i < |candidates| && 0 <= j < |candidates| && candidates[i].id == candidates[j].id
               ==> candidates[i] == candidates[j]
    ensures first < |candidates|
    ensures forall i :: 0 <= i < |candidates| ==>
              candidates[i] == candidates[first] || Before(candidates[first], candidates[i])
  {
    first := 0;
    for i := 1 to |candidates|
      invariant first < i
      invariant forall j :: 0 <= j < i ==> candidates[j] == candidates[first] || Before(candidates[first], candidates[j])
    {
      BeforeTotal(candidates[i], candidates[first]);
      if Before(candidates[i], candidates[first]) {
        forall j | 0 <= j < i
          ensures Before(candidates[i], candidates[j])
        {
          if candidates[j] != candidates[first] {
            BeforeTransitive(candidates[i], candidates[first], candidates[j]);
          }
        }
        first := i;
      }
    }
  }
}
