/**
  What leases mean over time and what their holders write, told on the fields of a run: how long a lease
  lasts, who may write under it, when another worker may take the run, and what a write leaves behind.
 */
module Leases {
  import opened Domain
  import opened Store

  /** The lease check passes for this worker and fence at this time. */
  predicate MayWrite(repo: Repo, id: string, workerId: string, fence: nat, now: Time) {
    LeaseCheck(repo, id, workerId, fence, now).None?
  }

  /** Nothing but this run differs. */
  ghost predicate OnlyRun(repo: Repo, repo': Repo, id: string) {
    && repo'.byIdempotency == repo.byIdempotency
    && id in repo.runs && id in repo'.runs
    && repo'.runs == repo.runs[id := repo'.runs[id]]
  }

  lemma CheckDecides(repo: Repo, id: string, workerId: string, fence: nat, now: Time)
    ensures var error := LeaseCheck(repo, id, workerId, fence, now);
            && (error == Some(NotFound) <==> id !in repo.runs)
            && (error.Some? ==> error.value in {NotFound, LeaseLost})
            && (error.None? <==>
                  && id in repo.runs
                  && var record := repo.runs[id].record;
                  && record.status == Running && record.leaseOwner == workerId && |workerId| > 0
                  && record.fence == fence && record.leaseUntil > now)
  {
  }

  /** The order of texts: the first place where they differ decides, and a text comes before its continuations. */
  ghost predicate Lexicographic(a: string, b: string) {
    exists n :: 0 <= n <= |a| && n < |b| && a[..n] == b[..n] && (n < |a| ==> a[n] < b[n])
  }

  lemma {:induction false} TextOrder(a: string, b: string)
    ensures StringLess(a, b) <==> Lexicographic(a, b)
  {
    if a != [] && b != [] && a[0] == b[0] {
      TextOrder(a[1..], b[1..]);
      if Lexicographic(a[1..], b[1..]) {
        var n :| 0 <= n <= |a[1..]| && n < |b[1..]| && a[1..][..n] == b[1..][..n] && (n < |a[1..]| ==> a[1..][n] < b[1..][n]);
        assert a[..n + 1] == [a[0]] + a[1..][..n] && b[..n + 1] == [b[0]] + b[1..][..n];
      }
      if Lexicographic(a, b) {
        var n :| 0 <= n <= |a| && n < |b| && a[..n] == b[..n] && (n < |a| ==> a[n] < b[n]);
        assert n > 0;
        assert a[1..][..n - 1] == a[..n][1..] && b[1..][..n - 1] == b[..n][1..];
      }
    } else if a != [] && b != [] {
      assert forall n :: 0 < n <= |a| && n <= |b| ==> a[..n][0] == a[0] && b[..n][0] == b[0];
      assert a[..0] == b[..0];
    } else {
      assert a[..0] == b[..0];
    }
  }

  /** The queue hands out the leasable run that was created first, and among equals the one whose id comes first. */
  lemma OldestFirst(repo: Repo, id: string, other: string, now: Time)
    requires IsNext(repo, id, now) && other in repo.runs && other != id && Leasable(repo.runs[other].record, now)
    ensures var a, b := repo.runs[id].record, repo.runs[other].record;
            a.createdAt < b.createdAt || (a.createdAt == b.createdAt && Lexicographic(a.id, b.id))
  {
    TextOrder(repo.runs[id].record.id, repo.runs[other].record.id);
  }

  /** A running run can be taken over exactly when its lease lets nobody write any more. */
  lemma HeldOrLeasable(repo: Repo, id: string, now: Time)
    requires Valid(repo) && id in repo.runs && repo.runs[id].record.status == Running
    requires repo.runs[id].record.deadline == 0 || now < repo.runs[id].record.deadline
    ensures Leasable(repo.runs[id].record, now) <==>
            forall workerId, fence :: !MayWrite(repo, id, workerId, fence, now)
  {
    var record := repo.runs[id].record;
    assert EntryOk(id, repo.runs[id]);
    assert MayWrite(repo, id, record.leaseOwner, record.fence, now) <==> now < record.leaseUntil;
  }

  /** No run is taken once its deadline has come, and a finished run never is. */
  lemma NotLeasable(record: RunRecord, now: Time)
    ensures IsTerminal(record.status) || (record.deadline != 0 && record.deadline <= now) ==> !Leasable(record, now)
    ensures record.status == Queued && record.deadline == 0 ==> Leasable(record, now)
  {
  }

  /** From a time on until its end the lease is this worker's alone; from then on the run may be taken over. */
  ghost predicate LeasedUntil(repo: Repo, id: string, workerId: string, fence: nat, end: Time) {
    && id in repo.runs
    && (forall w, f, t :: MayWrite(repo, id, w, f, t) <==> w == workerId && f == fence && t < end)
    && (forall t :: Leasable(repo.runs[id].record, t) <==>
          end <= t && (repo.runs[id].record.deadline == 0 || t < repo.runs[id].record.deadline))
  }

  /** What the record says besides its lease. */
  predicate SameWork(entry: Entry, entry': Entry) {
    && entry'.log == entry.log && entry'.checkpoint == entry.checkpoint
    && entry'.record.id == entry.record.id
    && entry'.record.tenantId == entry.record.tenantId
    && entry'.record.idempotencyKey == entry.record.idempotencyKey
    && entry'.record.requestHash == entry.record.requestHash
    && entry'.record.input == entry.record.input
    && entry'.record.mode == entry.record.mode
    && entry'.record.manifest == entry.record.manifest
    && entry'.record.deadline == entry.record.deadline
    && entry'.record.lastEventSeq == entry.record.lastEventSeq
    && entry'.record.finalResult == entry.record.finalResult
    && entry'.record.createdAt == entry.record.createdAt
  }

  /** A lease lasts for its time to live, under a fence above every one before, and leaves the run's work alone. */
  lemma LeaseLasts(repo: Repo, id: string, workerId: string, now: Time, ttl: int)
    requires Enabled(repo, Call.LeaseNext(id, workerId, now, ttl))
    ensures var repo' := After(repo, Call.LeaseNext(id, workerId, now, ttl));
            && OnlyRun(repo, repo', id) && SameWork(repo.runs[id], repo'.runs[id])
            && repo'.runs[id].record.status == Running
            && repo'.runs[id].record.attempt == repo.runs[id].record.attempt + 1
            && repo'.runs[id].record.updatedAt == now
            && LeasedUntil(repo', id, workerId, repo.runs[id].record.fence + 1, now + ttl)
            && LeaseOf(repo'.runs[id].record) ==
               Lease(repo'.runs[id].record, workerId, repo.runs[id].record.fence + 1, repo.runs[id].record.attempt + 1, now + ttl)
  {
  }

  /** A renewal needs a lease that still stands and moves its end; everything else stays. */
  lemma RenewalLasts(repo: Repo, id: string, workerId: string, fence: nat, now: Time, ttl: int)
    ensures var (repo', answer) := RenewLease(repo, id, workerId, fence, now, ttl);
            && (answer.Ok? <==> MayWrite(repo, id, workerId, fence, now) && ttl > 0)
            && (answer == Err(InvalidTransition) <==> MayWrite(repo, id, workerId, fence, now) && ttl <= 0)
            && (answer.Err? ==> repo' == repo)
            && (answer.Ok? ==>
                  && answer.value == now + ttl
                  && OnlyRun(repo, repo', id) && SameWork(repo.runs[id], repo'.runs[id])
                  && repo'.runs[id].record.status == Running
                  && repo'.runs[id].record.attempt == repo.runs[id].record.attempt
                  && repo'.runs[id].record.updatedAt == now
                  && LeasedUntil(repo', id, workerId, fence, now + ttl))
  {
  }

  /** An event goes behind the log under the next number, and is what the caller gets. */
  lemma EventAppended(repo: Repo, id: string, workerId: string, fence: nat, event: EventType, payload: Payload, now: Time)
    requires Valid(repo)
    ensures var (repo', answer) := AppendEvent(repo, id, workerId, fence, event, payload, now);
            && (answer.Ok? <==> MayWrite(repo, id, workerId, fence, now))
            && (answer.Err? ==> repo' == repo)
            && (answer.Ok? ==>
                  var entry := repo.runs[id];
                  && answer.value == RunEvent(id, |entry.log| + 1, event, now, payload)
                  && repo' == repo.(runs := repo.runs[id :=
                       entry.(log := entry.log + [answer.value],
                              record := entry.record.(lastEventSeq := |entry.log| + 1, updatedAt := now))]))
  {
    if MayWrite(repo, id, workerId, fence, now) {
      assert EntryOk(id, repo.runs[id]);
    }
  }

  /** A checkpoint is stored as it is unless it speaks of events to come or of fewer than the stored one. */
  lemma CheckpointSaved(repo: Repo, workerId: string, checkpoint: Checkpoint)
    requires Valid(repo)
    ensures var (repo', answer) := SaveCheckpoint(repo, workerId, checkpoint);
            var id := checkpoint.runId;
            var allowed := MayWrite(repo, id, workerId, checkpoint.fence, checkpoint.createdAt);
            && (answer == Err(CheckpointAhead) <==> allowed && |repo.runs[id].log| < checkpoint.eventSequence)
            && (answer == Err(StaleCheckpoint) <==>
                  && allowed && checkpoint.eventSequence <= |repo.runs[id].log|
                  && repo.runs[id].checkpoint.Some?
                  && checkpoint.eventSequence < repo.runs[id].checkpoint.value.eventSequence)
            && (answer.Err? && allowed ==> answer.error in {CheckpointAhead, StaleCheckpoint})
            && (answer.Err? ==> repo' == repo)
            && (answer.Ok? ==>
                  && allowed
                  && repo' == repo.(runs := repo.runs[id := repo.runs[id].(checkpoint := Some(checkpoint))]))
  {
    if MayWrite(repo, checkpoint.runId, workerId, checkpoint.fence, checkpoint.createdAt) {
      assert EntryOk(checkpoint.runId, repo.runs[checkpoint.runId]);
    }
  }

  /** The terminal event that announces a result of this status. */
  predicate Announces(event: EventType, status: RunStatus) {
    || (event == RunSucceeded && status == Succeeded)
    || (event == RunFailed && status == Failed)
    || (event == RunCancelled && status == Cancelled)
    || (event == RunTimedOut && status == TimedOut)
    || (event == RunInconclusive && status == Inconclusive)
  }

  /** A finish needs a lease that stands and the event that announces its result. */
  lemma FinishDecided(repo: Repo, id: string, workerId: string, fence: nat, result: FinalResult, event: EventType, now: Time)
    ensures var (repo', answer) := FinishRun(repo, id, workerId, fence, result, event, now);
            && (answer == Err(InvalidTransition) <==> !Announces(event, result.status))
            && (answer.Ok? <==> Announces(event, result.status) && MayWrite(repo, id, workerId, fence, now))
            && (answer.Err? ==> repo' == repo)
  {
  }

  /** A finished run has the result and, behind its log, the event that announces it. */
  lemma RunFinished(repo: Repo, id: string, workerId: string, fence: nat, result: FinalResult, event: EventType, now: Time)
    requires Valid(repo) && FinishRun(repo, id, workerId, fence, result, event, now).1.Ok?
    ensures var (repo', answer) := FinishRun(repo, id, workerId, fence, result, event, now);
            && id in repo.runs
            && answer.value == RunEvent(id, |repo.runs[id].log| + 1, event, now, ResultPayload(result))
            && repo' == repo.(runs := repo.runs[id := repo.runs[id].(
                 log := repo.runs[id].log + [answer.value],
                 record := repo.runs[id].record.(status := result.status, finalResult := Some(result),
                                                 leaseOwner := "", leaseUntil := 0,
                                                 lastEventSeq := |repo.runs[id].log| + 1, updatedAt := now))])
  {
    assert EntryOk(id, repo.runs[id]);
  }

  /** Nobody holds or takes a finished run at any time. */
  lemma FinishedForGood(repo: Repo, id: string, workerId: string, fence: nat, result: FinalResult, event: EventType, now: Time)
    requires FinishRun(repo, id, workerId, fence, result, event, now).1.Ok?
    ensures var repo' := FinishRun(repo, id, workerId, fence, result, event, now).0;
            && id in repo'.runs
            && (forall w, f, t :: !MayWrite(repo', id, w, f, t))
            && (forall t :: !Leasable(repo'.runs[id].record, t))
  {
  }
}
