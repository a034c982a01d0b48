/**
  The run store as a value: what every repository operation does to runs, idempotency keys,
  event logs and checkpoints, and the invariant that all of them keep.
 */
module Store {
  import opened Domain
  import opened EngineState

  datatype StoreError =
    | NotFound
    | NoRunAvailable
    | IdempotencyConflict
    | LeaseLost
    | InvalidTransition
    | StaleCheckpoint
    | CheckpointAhead
    | RunIdExists

  /** The request digest: everything of a request but its run id. Injective, as a hash is meant to be. */
  datatype RequestHash = RequestHash(
    tenantId: string,
    idempotencyKey: string,
    input: string,
    mode: ExecutionMode,
    deadline: Time,
    manifest: Manifest)

  datatype RunRecord = RunRecord(
    id: string,
    tenantId: string,
    idempotencyKey: string,
    requestHash: RequestHash,
    input: string,
    mode: ExecutionMode,
    manifest: Manifest,
    status: RunStatus,
    deadline: Time,
    leaseOwner: string,
    leaseUntil: Time,
    fence: nat,
    attempt: nat,
    lastEventSeq: nat,
    finalResult: Option<FinalResult>,
    createdAt: Time,
    updatedAt: Time)

  datatype RunEvent = RunEvent(runId: string, sequence: nat, event: EventType, occurredAt: Time, payload: Payload)

  /** The stored state is the decoded one: encoding and decoding are an inverse pair. */
  datatype Checkpoint = Checkpoint(
    runId: string,
    fence: nat,
    eventSequence: nat,
    state: ExecutionState,
    createdAt: Time)

  datatype Lease = Lease(run: RunRecord, workerId: string, fence: nat, attempt: nat, leaseUntil: Time)

  /** Everything kept about one run. */
  datatype Entry = Entry(record: RunRecord, log: seq<RunEvent>, checkpoint: Option<Checkpoint>)

  datatype Repo = Repo(runs: map<string, Entry>, byIdempotency: map<string, string>)

  const EMPTY_REPO := Repo(map[], map[])

  // Order of candidates

  predicate StringLess(a: string, b: string) {
    b != [] && (a == [] || a[0] < b[0] || (a[0] == b[0] && StringLess(a[1..], b[1..])))
  }

  lemma {:induction false} StringLessTotal(a: string, b: string)
    ensures StringLess(a, b) || a == b || StringLess(b, a)
    ensures !(StringLess(a, b) && StringLess(b, a)) && !StringLess(a, a)
  {
    if a != [] && b != [] {
      StringLessTotal(a[1..], b[1..]);
      assert a == [a[0]] + a[1..] && b == [b[0]] + b[1..];
    }
    if a != [] {
      StringLessTotal(a[1..], a[1..]);
    }
  }

  lemma {:induction false} StringLessTransitive(a: string, b: string, c: string)
    requires StringLess(a, b) && StringLess(b, c)
    ensures StringLess(a, c)
  {
    if a != [] && a[0] == b[0] == c[0] {
      StringLessTransitive(a[1..], b[1..], c[1..]);
    }
  }

  /** Older runs first, then by id. */
  predicate Before(a: RunRecord, b: RunRecord) {
    a.createdAt < b.createdAt || (a.createdAt == b.createdAt && StringLess(a.id, b.id))
  }

  lemma BeforeTotal(a: RunRecord, b: RunRecord)
    ensures Before(a, b) || Before(b, a) || a.id == b.id
    ensures !(Before(a, b) && Before(b, a))
  {
    StringLessTotal(a.id, b.id);
  }

  lemma BeforeTransitive(a: RunRecord, b: RunRecord, c: RunRecord)
    requires Before(a, b) && Before(b, c)
    ensures Before(a, c)
  {
    if a.createdAt == b.createdAt == c.createdAt {
      StringLessTransitive(a.id, b.id, c.id);
    }
  }

  predicate Leasable(record: RunRecord, now: Time) {
    && (record.status.Queued? || record.status.RetryWait? || (record.status.Running? && record.leaseUntil <= now))
    && (record.deadline == ZERO_TIME || now < record.deadline)
  }

  /** The run that the queue hands out next. */
  predicate IsNext(repo: Repo, runId: string, now: Time) {
    && runId in repo.runs
    && Leasable(repo.runs[runId].record, now)
    && forall other :: other in repo.runs && other != runId && Leasable(repo.runs[other].record, now)
                       ==> Before(repo.runs[runId].record, repo.runs[other].record)
  }

  lemma NextIsUnique(repo: Repo, a: string, b: string, now: Time)
    requires IsNext(repo, a, now) && IsNext(repo, b, now)
    ensures a == b
  {
    BeforeTotal(repo.runs[a].record, repo.runs[b].record);
  }

  // Operations

  function HashOf(request: RunRequest): RequestHash {
    RequestHash(request.tenantId, request.idempotencyKey, request.input, request.mode, request.deadline, request.manifest)
  }

  /** The joined key of the idempotency index; distinct pairs may join to the same string. */
  function JoinedKey(tenantId: string, idempotencyKey: string): string {
    tenantId + "\0" + idempotencyKey
  }

  function NewRecord(request: RunRequest, now: Time): RunRecord {
    RunRecord(request.runId, request.tenantId, request.idempotencyKey, HashOf(request), request.input, request.mode,
              request.manifest, Queued, request.deadline, "", ZERO_TIME, 0, 0, 1, None, now, now)
  }

  function CreatedEvent(request: RunRequest, now: Time): RunEvent {
    RunEvent(request.runId, 1, RunCreated, now, CreatedPayload(request.mode, request.manifest))
  }

  function NewEntry(request: RunRequest, now: Time): Entry {
    Entry(NewRecord(request, now), [CreatedEvent(request, now)], None)
  }

  /** Outcome of a creation: the record, and whether this call made it. */
  function CreateRun(repo: Repo, request: RunRequest, now: Time): (Repo, Result<(RunRecord, bool), StoreError>) {
    var key := JoinedKey(request.tenantId, request.idempotencyKey);
    if key in repo.byIdempotency && repo.byIdempotency[key] in repo.runs then
      var existing := repo.runs[repo.byIdempotency[key]].record;
      if existing.requestHash != HashOf(request) then (repo, Err(IdempotencyConflict)) else (repo, Ok((existing, false)))
    else if request.runId in repo.runs then (repo, Err(RunIdExists))
    else
      (Repo(repo.runs[request.runId := NewEntry(request, now)], repo.byIdempotency[key := request.runId]),
       Ok((NewRecord(request, now), true)))
  }

  function LeasedRecord(record: RunRecord, workerId: string, now: Time, ttl: int): RunRecord {
    record.(status := Running, leaseOwner := workerId, leaseUntil := now + ttl,
    fence := record.fence + 1, attempt := record.attempt + 1, updatedAt := now)
  }

  function LeaseOf(record: RunRecord): Lease {
    Lease(record, record.leaseOwner, record.fence, record.attempt, record.leaseUntil)
  }

  function Leased(entry: Entry, workerId: string, now: Time, ttl: int): Entry {
    entry.(record := LeasedRecord(entry.record, workerId, now, ttl))
  }

  /** The record is leased to this worker under this fence, by the time the worker claims. */
  predicate Holds(record: RunRecord, workerId: string, fence: nat, now: Time) {
    workerId != "" && record.status.Running? && record.leaseOwner == workerId && record.fence == fence && now < record.leaseUntil
  }

  /** The error of the lease check, if any. */
  function LeaseCheck(repo: Repo, runId: string, workerId: string, fence: nat, now: Time): (error: Option<StoreError>)
    ensures error.None? ==> runId in repo.runs
  {
    if runId !in repo.runs then Some(NotFound)
    else if !Holds(repo.runs[runId].record, workerId, fence, now) then Some(LeaseLost)
    else None
  }

  function Renewed(entry: Entry, now: Time, ttl: int): Entry {
    entry.(record := entry.record.(leaseUntil := now + ttl, updatedAt := now))
  }

  function RenewLease(repo: Repo, runId: string, workerId: string, fence: nat, now: Time, ttl: int)
    : (Repo, Result<Time, StoreError>)
  {
    var error := LeaseCheck(repo, runId, workerId, fence, now);
    if error.Some? then (repo, Err(error.value))
    else if ttl <= 0 then (repo, Err(InvalidTransition))
    else (repo.(runs := repo.runs[runId := Renewed(repo.runs[runId], now, ttl)]), Ok(now + ttl))
  }

  function NextEvent(record: RunRecord, event: EventType, payload: Payload, now: Time): RunEvent {
    RunEvent(record.id, record.lastEventSeq + 1, event, now, payload)
  }

  function Appended(entry: Entry, event: EventType, payload: Payload, now: Time): Entry {
    var appended := NextEvent(entry.record, event, payload, now);
    entry.(record := entry.record.(lastEventSeq := appended.sequence, updatedAt := now), log := entry.log + [appended])
  }

  function AppendEvent(repo: Repo, runId: string, workerId: string, fence: nat, event: EventType, payload: Payload, now: Time)
    : (Repo, Result<RunEvent, StoreError>)
  {
    var error := LeaseCheck(repo, runId, workerId, fence, now);
    if error.Some? then (repo, Err(error.value))
    else
      (repo.(runs := repo.runs[runId := Appended(repo.runs[runId], event, payload, now)]),
       Ok(NextEvent(repo.runs[runId].record, event, payload, now)))
  }

  /** Why a checkpoint is refused once the lease check has passed. */
  function SaveError(entry: Entry, checkpoint: Checkpoint): Option<StoreError> {
    if checkpoint.eventSequence > entry.record.lastEventSeq then Some(CheckpointAhead)
    else if entry.checkpoint.Some? && entry.checkpoint.value.eventSequence > checkpoint.eventSequence then Some(StaleCheckpoint)
    else None
  }

  function Saved(entry: Entry, checkpoint: Checkpoint): Entry {
    entry.(checkpoint := Some(checkpoint))
  }

  function SaveCheckpoint(repo: Repo, workerId: string, checkpoint: Checkpoint): (Repo, Result<(), StoreError>) {
    var runId := checkpoint.runId;
    var error := LeaseCheck(repo, runId, workerId, checkpoint.fence, checkpoint.createdAt);
    if error.Some? then (repo, Err(error.value))
    else
      var refused := SaveError(repo.runs[runId], checkpoint);
      if refused.Some? then (repo, Err(refused.value))
      else (repo.(runs := repo.runs[runId := Saved(repo.runs[runId], checkpoint)]), Ok(()))
  }

  function Finished(entry: Entry, result: FinalResult, event: EventType, now: Time): Entry {
    var appended := NextEvent(entry.record, event, ResultPayload(result), now);
    entry.(record := entry.record.(status := result.status, lastEventSeq := appended.sequence, finalResult := Some(result),
    leaseOwner := "", leaseUntil := ZERO_TIME, updatedAt := now),
    log := entry.log + [appended])
  }

  function FinishRun(repo: Repo, runId: string, workerId: string, fence: nat, result: FinalResult, event: EventType, now: Time)
    : (Repo, Result<RunEvent, StoreError>)
  {
    if !ValidTerminalEvent(result, event) then (repo, Err(InvalidTransition))
    else
      var error := LeaseCheck(repo, runId, workerId, fence, now);
      if error.Some? then (repo, Err(error.value))
      else
        (repo.(runs := repo.runs[runId := Finished(repo.runs[runId], result, event, now)]),
         Ok(NextEvent(repo.runs[runId].record, event, ResultPayload(result), now)))
  }

  /** The events behind a cursor, oldest first. */
  function EventsAfter(log: seq<RunEvent>, after: nat): seq<RunEvent> {
    if log == [] then []
    else if log[|log| - 1].sequence > after then EventsAfter(log[..|log| - 1], after) + [log[|log| - 1]]
    else EventsAfter(log[..|log| - 1], after)
  }

  // The invariant

  /** Keys and runs correspond one to one. */
  ghost predicate Indexed(repo: Repo) {
    && (forall key :: key in repo.byIdempotency ==>
          && repo.byIdempotency[key] in repo.runs
          && KeyOf(repo.runs[repo.byIdempotency[key]].record) == key)
    && (forall id :: id in repo.runs ==>
          && KeyOf(repo.runs[id].record) in repo.byIdempotency
          && repo.byIdempotency[KeyOf(repo.runs[id].record)] == id)
  }

  function KeyOf(record: RunRecord): string {
    JoinedKey(record.tenantId, record.idempotencyKey)
  }

  ghost predicate LogNumbered(runId: string, log: seq<RunEvent>) {
    forall i :: 0 <= i < |log| ==> log[i].sequence == i + 1 && log[i].runId == runId
  }

  /** The final result agrees with the status and with the last event. */
  ghost predicate ResultOk(record: RunRecord, log: seq<RunEvent>) {
    && (IsTerminal(record.status) <==> record.finalResult.Some?)
    && (record.finalResult.Some? ==>
          && record.finalResult.value.status == record.status
          && 2 <= |log|
          && ValidTerminalEvent(record.finalResult.value, log[|log| - 1].event)
          && log[|log| - 1].payload == ResultPayload(record.finalResult.value))
  }

  ghost predicate LeaseOk(record: RunRecord) {
    && record.fence == record.attempt
    && (record.status.Queued? || record.status.Running? || IsTerminal(record.status))
    && (record.status.Queued? <==> record.fence == 0)
    && (record.status.Running? <==> record.leaseOwner != "")
  }

  /** What one run's record, log and checkpoint have to do with each other. */
  ghost predicate EntryOk(id: string, entry: Entry) {
    var record, log := entry.record, entry.log;
    && record.id == id
    && record.requestHash == HashOf(RequestFrom(record))
    && LeaseOk(record)
    && |log| == record.lastEventSeq && 1 <= |log|
    && LogNumbered(id, log)
    && log[0].event == RunCreated
    && ResultOk(record, log)
    && (entry.checkpoint.Some? ==>
          && entry.checkpoint.value.runId == id
          && 1 <= entry.checkpoint.value.fence <= record.fence
          && entry.checkpoint.value.eventSequence <= |log|)
  }

  ghost predicate Valid(repo: Repo) {
    && Indexed(repo)
    && forall id :: id in repo.runs ==> EntryOk(id, repo.runs[id])
  }

  /** The request a worker rebuilds from a record. */
  function RequestFrom(record: RunRecord): RunRequest {
    RunRequest(record.id, record.tenantId, record.idempotencyKey, record.input, record.mode, record.deadline, record.manifest)
  }

  // One call by anyone, at any claimed time

  datatype Call =
    | Create(request: RunRequest, now: Time)
    | LeaseNext(runId: string, workerId: string, now: Time, ttl: int)
    | Renew(runId: string, workerId: string, fence: nat, now: Time, ttl: int)
    | Append(runId: string, workerId: string, fence: nat, event: EventType, payload: Payload, now: Time)
    | Save(workerId: string, checkpoint: Checkpoint)
    | Finish(runId: string, workerId: string, fence: nat, result: FinalResult, event: EventType, now: Time)

  /** A lease call takes the next run; all other calls may be made at any moment. */
  ghost predicate Enabled(repo: Repo, call: Call) {
    call.LeaseNext? ==> call.workerId != "" && 0 < call.ttl && IsNext(repo, call.runId, call.now)
  }

  /** The value of the store after a call; a failed call leaves it as it was. */
  ghost function After(repo: Repo, call: Call): Repo
    requires Enabled(repo, call)
  {
    match call
    case Create(request, now) => CreateRun(repo, request, now).0
    case LeaseNext(runId, workerId, now, ttl) =>
      repo.(runs := repo.runs[runId := Leased(repo.runs[runId], workerId, now, ttl)])
    case Renew(runId, workerId, fence, now, ttl) => RenewLease(repo, runId, workerId, fence, now, ttl).0
    case Append(runId, workerId, fence, event, payload, now) =>
      AppendEvent(repo, runId, workerId, fence, event, payload, now).0
    case Save(workerId, checkpoint) => SaveCheckpoint(repo, workerId, checkpoint).0
    case Finish(runId, workerId, fence, result, event, now) =>
      FinishRun(repo, runId, workerId, fence, result, event, now).0
  }

  /** The run a call is about. */
  function Target(call: Call): string {
    match call
    case Create(request, _) => request.runId
    case LeaseNext(runId, _, _, _) => runId
    case Renew(runId, _, _, _, _) => runId
    case Append(runId, _, _, _, _, _) => runId
    case Save(_, checkpoint) => checkpoint.runId
    case Finish(runId, _, _, _, _, _) => runId
  }

  /** The entry of the target after a call that changes the store. */
  function Updated(entry: Entry, call: Call): Entry {
    match call
    case Create(request, now) => NewEntry(request, now)
    case LeaseNext(_, workerId, now, ttl) => Leased(entry, workerId, now, ttl)
    case Renew(_, _, _, now, ttl) => Renewed(entry, now, ttl)
    case Append(_, _, _, event, payload, now) => Appended(entry, event, payload, now)
    case Save(_, checkpoint) => Saved(entry, checkpoint)
    case Finish(_, _, _, result, event, now) => Finished(entry, result, event, now)
  }

  /** Any call but a creation leaves the store alone, or updates its target under the target's current lease. */
  lemma CallEffect(repo: Repo, call: Call)
    requires Enabled(repo, call) && !call.Create?
    ensures var repo' := After(repo, call);
            || repo' == repo
            || (&& Target(call) in repo.runs
                && repo' == repo.(runs := repo.runs[Target(call) := Updated(repo.runs[Target(call)], call)])
                && !IsTerminal(repo.runs[Target(call)].record.status))
  {
  }

  lemma CreateKeepsIndex(repo: Repo, request: RunRequest, now: Time)
    requires Indexed(repo)
    ensures Indexed(CreateRun(repo, request, now).0)
  {
  }

  lemma NewEntryOk(request: RunRequest, now: Time)
    ensures EntryOk(request.runId, NewEntry(request, now))
  {
  }

  lemma CreateKeepsValid(repo: Repo, request: RunRequest, now: Time)
    requires Valid(repo)
    ensures Valid(CreateRun(repo, request, now).0)
  {
    CreateKeepsIndex(repo, request, now);
    NewEntryOk(request, now);
  }

  lemma UpdateKeepsIndex(repo: Repo, id: string, entry: Entry)
    requires Indexed(repo) && id in repo.runs && KeyOf(entry.record) == KeyOf(repo.runs[id].record)
    ensures Indexed(repo.(runs := repo.runs[id := entry]))
  {
  }

  lemma UpdateKeepsValid(repo: Repo, id: string, entry: Entry)
    requires Valid(repo) && id in repo.runs && KeyOf(entry.record) == KeyOf(repo.runs[id].record)
    requires EntryOk(id, entry)
    ensures Valid(repo.(runs := repo.runs[id := entry]))
  {
    UpdateKeepsIndex(repo, id, entry);
  }

  lemma LeasedOk(id: string, entry: Entry, workerId: string, now: Time, ttl: int)
    requires EntryOk(id, entry) && workerId != "" && Leasable(entry.record, now)
    ensures EntryOk(id, Leased(entry, workerId, now, ttl))
  {
  }

  lemma AppendedOk(id: string, entry: Entry, event: EventType, payload: Payload, now: Time)
    requires EntryOk(id, entry) && entry.record.status.Running?
    ensures EntryOk(id, Appended(entry, event, payload, now))
  {
  }

  lemma FinishedOk(id: string, entry: Entry, result: FinalResult, event: EventType, now: Time)
    requires EntryOk(id, entry) && entry.record.status.Running? && ValidTerminalEvent(result, event)
    ensures EntryOk(id, Finished(entry, result, event, now))
  {
    TerminalTestsAgree(result.status, event);
  }

  lemma SavedEntryOk(repo: Repo, workerId: string, checkpoint: Checkpoint)
    requires Valid(repo) && SaveCheckpoint(repo, workerId, checkpoint).1.Ok?
    ensures EntryOk(checkpoint.runId, Saved(repo.runs[checkpoint.runId], checkpoint))
  {
    assert EntryOk(checkpoint.runId, repo.runs[checkpoint.runId]);
  }

  lemma LeaseKeepsValid(repo: Repo, runId: string, workerId: string, now: Time, ttl: int)
    requires Valid(repo) && workerId != "" && runId in repo.runs && Leasable(repo.runs[runId].record, now)
    ensures Valid(repo.(runs := repo.runs[runId := Leased(repo.runs[runId], workerId, now, ttl)]))
  {
    LeasedOk(runId, repo.runs[runId], workerId, now, ttl);
    UpdateKeepsValid(repo, runId, Leased(repo.runs[runId], workerId, now, ttl));
  }

  lemma RenewKeepsValid(repo: Repo, runId: string, workerId: string, fence: nat, now: Time, ttl: int)
    requires Valid(repo)
    ensures Valid(RenewLease(repo, runId, workerId, fence, now, ttl).0)
  {
    if RenewLease(repo, runId, workerId, fence, now, ttl).1.Ok? {
      UpdateKeepsValid(repo, runId, Renewed(repo.runs[runId], now, ttl));
    }
  }

  lemma AppendKeepsValid(repo: Repo, runId: string, workerId: string, fence: nat, event: EventType, payload: Payload, now: Time)
    requires Valid(repo)
    ensures Valid(AppendEvent(repo, runId, workerId, fence, event, payload, now).0)
  {
    if AppendEvent(repo, runId, workerId, fence, event, payload, now).1.Ok? {
      AppendedOk(runId, repo.runs[runId], event, payload, now);
      UpdateKeepsValid(repo, runId, Appended(repo.runs[runId], event, payload, now));
    }
  }

  lemma SaveKeepsValid(repo: Repo, workerId: string, checkpoint: Checkpoint)
    requires Valid(repo)
    ensures Valid(SaveCheckpoint(repo, workerId, checkpoint).0)
  {
    if SaveCheckpoint(repo, workerId, checkpoint).1.Ok? {
      SavedEntryOk(repo, workerId, checkpoint);
      UpdateKeepsValid(repo, checkpoint.runId, Saved(repo.runs[checkpoint.runId], checkpoint));
    }
  }

  lemma FinishKeepsValid(repo: Repo, runId: string, workerId: string, fence: nat, result: FinalResult, event: EventType, now: Time)
    requires Valid(repo)
    ensures Valid(FinishRun(repo, runId, workerId, fence, result, event, now).0)
  {
    if FinishRun(repo, runId, workerId, fence, result, event, now).1.Ok? {
      FinishedOk(runId, repo.runs[runId], result, event, now);
      UpdateKeepsValid(repo, runId, Finished(repo.runs[runId], result, event, now));
    }
  }

  /** Every call by anyone, at any claimed time, keeps the store valid. */
  lemma CallKeepsValid(repo: Repo, call: Call)
    requires Valid(repo) && Enabled(repo, call)
    ensures Valid(After(repo, call))
  {
    match call
    case Create(request, now) => CreateKeepsValid(repo, request, now);
    case LeaseNext(runId, workerId, now, ttl) => LeaseKeepsValid(repo, runId, workerId, now, ttl);
    case Renew(runId, workerId, fence, now, ttl) => RenewKeepsValid(repo, runId, workerId, fence, now, ttl);
    case Append(runId, workerId, fence, event, payload, now) =>
      AppendKeepsValid(repo, runId, workerId, fence, event, payload, now);
    case Save(workerId, checkpoint) => SaveKeepsValid(repo, workerId, checkpoint);
    case Finish(runId, workerId, fence, result, event, now) =>
      FinishKeepsValid(repo, runId, workerId, fence, result, event, now);
  }
}
