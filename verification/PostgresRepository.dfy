/**
  The SQL repository's methods: one transaction each, statement by statement on a copy of the rows it
  touches, which is dropped when a statement fails and written back by the commit.
 */
module PostgresRepository {
  import opened Domain
  import opened Store
  import P = Postgres
  import Outbox

  lemma RowBeforeTotal(a: P.RunRow, b: P.RunRow)
    ensures P.RowBefore(a, b) || P.RowBefore(b, a) || a.id == b.id
  {
    StringLessTotal(a.id, b.id);
  }

  lemma RowBeforeTransitive(a: P.RunRow, b: P.RunRow, c: P.RunRow)
    requires P.RowBefore(a, b) && P.RowBefore(b, c)
    ensures P.RowBefore(a, c)
  {
    if StringLess(a.id, b.id) && StringLess(b.id, c.id) {
      StringLessTransitive(a.id, b.id, c.id);
    }
  }

  class Repository {
    var runs: map<string, P.RunRows>
    var pairs: map<(string, string), string>
    var outbox: seq<Outbox.OutboxRow>
    var nextOutboxId: nat

    function Tables(): P.Tables
      reads this
    {
      P.Tables(runs, pairs, outbox, nextOutboxId)
    }

    /** Primary keys are the keys of the tables. */
    ghost predicate Keyed()
      reads this
    {
      forall id :: id in runs ==> runs[id].row.id == id
    }

    constructor ()
      ensures Tables() == P.EMPTY_TABLES
    {
      runs, pairs, outbox, nextOutboxId := map[], map[], [], 1;
    }

    /** Commits the rows of one run, with the announcement of its new event. */
    method Commit(id: string, g: P.RunRows, event: Option<RunEvent>)
      modifies this
      ensures Tables() == P.Commit(old(Tables()), id, g, event)
    {
      runs := runs[id := g];
      if event.Some? {
        outbox := outbox + [P.AnnouncementOf(event.value, nextOutboxId)];
        nextOutboxId := nextOutboxId + 1;
      }
    }

    method CreateRun(request: RunRequest, now: Time) returns (answer: Result<(RunRecord, bool), P.SqlError>)
      modifies this
      ensures (Tables(), answer) == P.CreateRun(old(Tables()), request, now)
    {
      var hash, pair := HashOf(request), (request.tenantId, request.idempotencyKey);
      if !P.Storable(request) {
        return Err(P.BadText);
      }
      if pair in pairs && pairs[pair] in runs {
        var record := P.RecordOf(runs[pairs[pair]].row);
        if record.requestHash != hash {
          return Err(P.Known(IdempotencyConflict));
        }
        return Ok((record, false));
      }
      if request.runId in runs {
        return Err(P.Violation);
      }
      var row := P.NewRow(request, now);
      var event := CreatedEvent(request, now);
      pairs := pairs[pair := request.runId];
      Commit(request.runId, P.RunRows(row, map[], {}, map[1 := event], None), Some(event));
      return Ok((P.RecordOf(row), true));
    }

    method GetRun(id: string) returns (answer: Result<RunRecord, P.SqlError>)
      ensures answer == if id in runs then Ok(P.RecordOf(runs[id].row)) else Err(P.Known(NotFound))
    {
      if id !in runs {
        return Err(P.Known(NotFound));
      }
      return Ok(P.RecordOf(runs[id].row));
    }

    /** The queue query: the leasable row that sorts first. */
    method Candidate(now: Time) returns (first: Option<string>)
      requires Keyed()
      ensures first.Some? ==> P.IsFirst(runs, first.value, now)
      ensures first.None? ==> forall id :: id in runs ==> !P.LeasableRow(runs[id].row, now)
    {
      first := None;
      var rest := runs.Keys;
      while rest != {}
        invariant rest <= runs.Keys
        invariant first.None? ==> forall id :: id in runs && id !in rest ==> !P.LeasableRow(runs[id].row, now)
        invariant first.Some? ==>
                    && first.value in runs && first.value !in rest && P.LeasableRow(runs[first.value].row, now)
                    && forall id :: id in runs && id !in rest && id != first.value && P.LeasableRow(runs[id].row, now)
                                    ==> P.RowBefore(runs[first.value].row, runs[id].row)
        decreases |rest|
      {
        var id :| id in rest;
        rest := rest - {id};
        if P.LeasableRow(runs[id].row, now) {
          if first.None? {
            first := Some(id);
          } else {
            RowBeforeTotal(runs[id].row, runs[first.value].row);
            if P.RowBefore(runs[id].row, runs[first.value].row) {
              forall other | P.RowBefore(runs[first.value].row, other)
                ensures P.RowBefore(runs[id].row, other)
              {
                RowBeforeTransitive(runs[id].row, runs[first.value].row, other);
              }
              first := Some(id);
            }
          }
        }
      }
    }

    method LeaseNext(workerId: string, now: Time, ttl: int) returns (answer: Result<Lease, P.SqlError>)
      requires Keyed()
      modifies this
      ensures answer.Err? ==> Tables() == old(Tables())
      ensures workerId == "" || ttl <= 0 ==> answer == Err(P.Known(InvalidTransition))
      ensures answer == Err(P.Known(NoRunAvailable)) ==>
                forall id :: id in old(runs) ==> !P.LeasableRow(old(runs)[id].row, now)
      ensures answer.Ok? ==>
                && P.Enabled(old(Tables()), Call.LeaseNext(answer.value.run.id, workerId, now, ttl))
                && (Tables(), answer) == P.LeaseRun(old(Tables()), answer.value.run.id, workerId, now, ttl)
    {
      if workerId == "" || ttl <= 0 {
        return Err(P.Known(InvalidTransition));
      }
      var next := Candidate(now);
      if next.None? {
        return Err(P.Known(NoRunAvailable));
      }
      if !P.NulFree(workerId) {
        return Err(P.BadText);
      }
      var id, g := next.value, runs[next.value];
      if g.row.status.Running? {
        g := g.(attempts := P.Expired(g.attempts, now));
      }
      g := g.(row := P.LeasedRow(g.row, workerId, now, ttl));
      if g.row.attempt in g.attempts || g.row.fence in g.fences {
        return Err(P.Violation);
      }
      g := g.(attempts := g.attempts[g.row.attempt := P.AttemptRow(g.row.attempt, workerId, g.row.fence, P.AttemptRunning, now, None, None)],
      fences := g.fences + {g.row.fence});
      Commit(id, g, None);
      var record := P.RecordOf(g.row);
      return Ok(Lease(record, workerId, record.fence, record.attempt, record.leaseUntil));
    }

    method RenewLease(id: string, workerId: string, fence: nat, now: Time, ttl: int) returns (answer: Result<Time, P.SqlError>)
      modifies this
      ensures (Tables(), answer) == P.RenewLease(old(Tables()), id, workerId, fence, now, ttl)
    {
      if workerId == "" || ttl <= 0 {
        return Err(P.Known(InvalidTransition));
      }
      var leaseUntil := now + ttl;
      if !P.HoldsRun(Tables(), id, workerId, fence, now) {
        return Err(P.Known(LeaseLost));
      }
      var g := runs[id];
      g := g.(row := g.row.(leaseUntil := Some(leaseUntil), updatedAt := now));
      Commit(id, g, None);
      return Ok(leaseUntil);
    }

    /** The statement that counts an event into its run. */
    method AdvanceSequence(id: string, workerId: string, fence: nat, now: Time) returns (answer: Result<P.RunRows, P.SqlError>)
      ensures answer == if workerId == "" || !P.HoldsRun(Tables(), id, workerId, fence, now) then Err(P.Known(LeaseLost))
                        else Ok(runs[id].(row := runs[id].row.(lastEventSeq := runs[id].row.lastEventSeq + 1, updatedAt := now)))
    {
      if workerId == "" || !P.HoldsRun(Tables(), id, workerId, fence, now) {
        return Err(P.Known(LeaseLost));
      }
      var g := runs[id];
      return Ok(g.(row := g.row.(lastEventSeq := g.row.lastEventSeq + 1, updatedAt := now)));
    }

    method AppendEvent(id: string, workerId: string, fence: nat, event: EventType, payload: Payload, now: Time)
      returns (answer: Result<RunEvent, P.SqlError>)
      requires Keyed()
      modifies this
      ensures Tables() == P.AppendEvent(old(Tables()), id, workerId, fence, event, payload, now).0
      ensures answer == P.AppendEvent(old(Tables()), id, workerId, fence, event, payload, now).1
    {
      var advanced := AdvanceSequence(id, workerId, fence, now);
      if advanced.Err? {
        return Err(advanced.error);
      }
      var g := advanced.value;
      var appended := RunEvent(id, g.row.lastEventSeq, event, now, payload);
      if !P.StorablePayload(payload) {
        return Err(P.BadText);
      }
      if appended.sequence in g.events {
        return Err(P.Violation);
      }
      Commit(id, g.(events := g.events[appended.sequence := appended]), Some(appended));
      return Ok(appended);
    }

    method SaveCheckpoint(workerId: string, checkpoint: Checkpoint) returns (answer: Result<(), P.SqlError>)
      modifies this
      ensures (Tables(), answer) == P.SaveCheckpoint(old(Tables()), workerId, checkpoint)
    {
      var id := checkpoint.runId;
      if workerId == "" || !P.HoldsRun(Tables(), id, workerId, checkpoint.fence, checkpoint.createdAt) {
        return Err(P.Known(LeaseLost));
      }
      var g := runs[id];
      if checkpoint.eventSequence > g.row.lastEventSeq {
        return Err(P.Known(CheckpointAhead));
      }
      if g.checkpoint.Some? && g.checkpoint.value.eventSequence > checkpoint.eventSequence {
        return Err(P.Known(StaleCheckpoint));
      }
      if !P.StorableState(checkpoint.state) {
        return Err(P.BadText);
      }
      Commit(id, g.(checkpoint := Some(checkpoint)), None);
      return Ok(());
    }

    method FinishRun(id: string, workerId: string, fence: nat, result: FinalResult, event: EventType, now: Time)
      returns (answer: Result<RunEvent, P.SqlError>)
      requires Keyed()
      modifies this
      ensures Tables() == P.FinishRun(old(Tables()), id, workerId, fence, result, event, now).0
      ensures answer == P.FinishRun(old(Tables()), id, workerId, fence, result, event, now).1
    {
      if !ValidTerminalEvent(result, event) {
        return Err(P.Known(InvalidTransition));
      }
      if !P.StorableResult(result) {
        return Err(P.BadText);
      }
      if !P.HoldsRun(Tables(), id, workerId, fence, now) {
        return Err(P.Known(LeaseLost));
      }
      var g := runs[id];
      var attempt := g.row.attempt;
      g := g.(row := P.FinishedRow(g.row, result, now));
      if attempt in g.attempts && g.attempts[attempt].status == P.AttemptRunning {
        var closed := g.attempts[attempt].(status := P.AttemptStatusFor(result.status), finishedAt := Some(now));
        g := g.(attempts := g.attempts[attempt := closed.(error := P.NullableString(result.error))]);
      }
      var appended := RunEvent(id, g.row.lastEventSeq, event, now, ResultPayload(result));
      if appended.sequence in g.events {
        return Err(P.Violation);
      }
      Commit(id, g.(events := g.events[appended.sequence := appended]), Some(appended));
      return Ok(appended);
    }
  }
}
