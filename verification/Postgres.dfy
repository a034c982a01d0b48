/**
  The SQL repository as a value: the rows of its tables, and each transaction as a function of them.
  The child tables reference a run, so their rows are grouped by run.
 */
module Postgres {
  import opened Domain
  import opened EngineState
  import opened Store
  import Outbox

  datatype AttemptStatus = AttemptRunning | AttemptSucceeded | AttemptFailed | LeaseExpired | AttemptCancelled

  datatype RunRow = RunRow(
    id: string,
    tenantId: string,
    idempotencyKey: string,
    requestHash: RequestHash,
    input: string,
    mode: ExecutionMode,
    manifest: Manifest,
    status: RunStatus,
    deadlineAt: Option<Time>,
    nextAttemptAt: Option<Time>,
    leaseOwner: Option<string>,
    leaseUntil: Option<Time>,
    fence: nat,
    attempt: nat,
    lastEventSeq: nat,
    finalResult: Option<FinalResult>,
    createdAt: Time,
    updatedAt: Time)

  datatype AttemptRow = AttemptRow(
    attempt: nat,
    workerId: string,
    fence: nat,
    status: AttemptStatus,
    startedAt: Time,
    finishedAt: Option<Time>,
    error: Option<string>)

  /**
    One run's rows: in `runs`, in `run_attempts` by attempt number with the unique index on fences,
    in `run_events` by sequence, and in `checkpoints`.
   */
  datatype RunRows = RunRows(
    row: RunRow,
    attempts: map<nat, AttemptRow>,
    fences: set<nat>,
    events: map<nat, RunEvent>,
    checkpoint: Option<Checkpoint>)

  /** `pairs` is the unique index of `runs` on tenant and idempotency key. */
  datatype Tables = Tables(
    runs: map<string, RunRows>,
    pairs: map<(string, string), string>,
    outbox: seq<Outbox.OutboxRow>,
    nextOutboxId: nat)

  const EMPTY_TABLES := Tables(map[], map[], [], 1)

  datatype SqlError = Known(error: StoreError) | Violation | BadText

  // Columns and records

  function NullableTime(t: Time): Option<Time> {
    if t == ZERO_TIME then None else Some(t)
  }

  function NullableString(s: string): Option<string> {
    if s == "" then None else Some(s)
  }

  function OrZero(t: Option<Time>): Time {
    if t.Some? then t.value else ZERO_TIME
  }

  function OrEmpty(s: Option<string>): string {
    if s.Some? then s.value else ""
  }

  /** What scanning a row yields. */
  function RecordOf(row: RunRow): RunRecord {
    RunRecord(row.id, row.tenantId, row.idempotencyKey, row.requestHash, row.input, row.mode, row.manifest, row.status,
              OrZero(row.deadlineAt), OrEmpty(row.leaseOwner), OrZero(row.leaseUntil), row.fence, row.attempt,
              row.lastEventSeq, row.finalResult, row.createdAt, row.updatedAt)
  }

  /** A text column takes no NUL character. */
  predicate NulFree(s: string) {
    '\0' !in s
  }

  predicate Storable(request: RunRequest) {
    && NulFree(request.runId) && NulFree(request.tenantId) && NulFree(request.idempotencyKey) && NulFree(request.input)
    && StorableManifest(request.manifest)
  }

  // What a jsonb column takes: the text of a string may hold no NUL, written out or escaped

  predicate HighSurrogate(digits: string) {
    |digits| == 4 && digits[0] in "dD" && digits[1] in "89abAB"
  }

  predicate LowSurrogate(digits: string) {
    |digits| == 4 && digits[0] in "dD" && digits[1] in "cdefCDEF"
  }

  /** From this place on, no escape stands for NUL or for half a surrogate pair. */
  predicate EscapesFrom(json: string, i: nat)
    decreases |json| - i
  {
    if |json| <= i then true
    else if json[i] != '\\' then EscapesFrom(json, i + 1)
    else if i + 6 <= |json| && json[i + 1] == 'u' then
      var digits := json[i + 2..i + 6];
      if HighSurrogate(digits) then
        && i + 12 <= |json| && json[i + 6] == '\\' && json[i + 7] == 'u' && LowSurrogate(json[i + 8..i + 12])
        && EscapesFrom(json, i + 12)
      else digits != "0000" && !LowSurrogate(digits) && EscapesFrom(json, i + 6)
    else EscapesFrom(json, i + 2)
  }

  /** The arguments of a call are JSON text of their own; its strings are checked as the column reads them. */
  predicate StorableToolCall(call: ToolCall) {
    NulFree(call.id) && NulFree(call.name) && NulFree(call.arguments) && EscapesFrom(call.arguments, 0)
  }

  predicate StorableManifest(m: Manifest) {
    && NulFree(m.releaseId) && NulFree(m.checksum) && NulFree(m.agentVersion) && NulFree(m.promptVersion)
    && (forall i :: 0 <= i < |m.skillVersions| ==> NulFree(m.skillVersions[i]))
    && NulFree(m.toolsetVersion) && NulFree(m.modelProfileVersion) && NulFree(m.policyVersion)
  }

  predicate StorableResult(result: FinalResult) {
    NulFree(result.output) && NulFree(result.error)
  }

  predicate StorablePayload(payload: Payload) {
    match payload
    case CreatedPayload(_, manifest) => StorableManifest(manifest)
    case EngineCreatedPayload(releaseId, _) => NulFree(releaseId)
    case StartedPayload(adapter, _) => NulFree(adapter)
    case DeltaPayload(_, delta) => NulFree(delta)
    case UsagePayload(_, _, _) => true
    case RequestedPayload(call) => StorableToolCall(call)
    case CompletedPayload(callId, name, content) => NulFree(callId) && NulFree(name) && NulFree(content)
    case FailedPayload(callId, name, error) => NulFree(callId) && NulFree(name) && NulFree(error)
    case ResultPayload(result) => StorableResult(result)
  }

  predicate StorableMessage(m: Message) {
    && NulFree(m.content) && NulFree(m.toolCallId) && NulFree(m.toolName)
    && forall i :: 0 <= i < |m.toolCalls| ==> StorableToolCall(m.toolCalls[i])
  }

  predicate StorableState(s: ExecutionState) {
    && NulFree(s.runId) && NulFree(s.manifestChecksum) && (s.phase.OtherPhase? ==> NulFree(s.phase.text))
    && (forall i :: 0 <= i < |s.messages| ==> StorableMessage(s.messages[i]))
    && (forall i :: 0 <= i < |s.pending| ==> StorableToolCall(s.pending[i]))
  }

  /** Every text that a call writes can be stored. */
  predicate StorableCall(call: Call) {
    match call
    case Create(request, _) => Storable(request)
    case LeaseNext(_, workerId, _, _) => NulFree(workerId)
    case Renew(_, _, _, _, _) => true
    case Append(_, _, _, _, payload, _) => StorablePayload(payload)
    case Save(_, checkpoint) => StorableState(checkpoint.state)
    case Finish(_, _, _, result, _, _) => StorableResult(result)
  }

  // Statements

  predicate LeasableRow(row: RunRow, now: Time) {
    && (|| ((row.status.Queued? || row.status.RetryWait?) && (row.nextAttemptAt.None? || row.nextAttemptAt.value <= now))
        || (row.status.Running? && row.leaseUntil.Some? && row.leaseUntil.value <= now))
    && (row.deadlineAt.None? || now < row.deadlineAt.value)
  }

  function Coalesce(row: RunRow): Time {
    if row.nextAttemptAt.Some? then row.nextAttemptAt.value else row.createdAt
  }

  predicate RowBefore(a: RunRow, b: RunRow) {
    || Coalesce(a) < Coalesce(b)
    || (Coalesce(a) == Coalesce(b) && a.createdAt < b.createdAt)
    || (Coalesce(a) == Coalesce(b) && a.createdAt == b.createdAt && StringLess(a.id, b.id))
  }

  /** The row that the queue query returns. */
  predicate IsFirst(runs: map<string, RunRows>, id: string, now: Time) {
    && id in runs
    && LeasableRow(runs[id].row, now)
    && forall other :: other in runs && other != id && LeasableRow(runs[other].row, now)
                       ==> RowBefore(runs[id].row, runs[other].row)
  }

  /** The condition shared by all statements of a lease holder. */
  predicate HoldsRow(row: RunRow, workerId: string, fence: nat, now: Time) {
    && row.status.Running? && row.leaseOwner == Some(workerId) && row.fence == fence
    && row.leaseUntil.Some? && now < row.leaseUntil.value
  }

  function Expired(attempts: map<nat, AttemptRow>, now: Time): map<nat, AttemptRow> {
    map n | n in attempts ::
      if attempts[n].status == AttemptRunning
      then attempts[n].(status := LeaseExpired, finishedAt := Some(now), error := Some("lease expired"))
      else attempts[n]
  }

  function LeasedRow(row: RunRow, workerId: string, now: Time, ttl: int): RunRow {
    row.(status := Running, leaseOwner := Some(workerId), leaseUntil := Some(now + ttl), fence := row.fence + 1,
    attempt := row.attempt + 1, nextAttemptAt := None, updatedAt := now)
  }

  /** The lease transaction on the run it selected; None when a unique index refuses the new attempt. */
  function LeaseRows(g: RunRows, workerId: string, now: Time, ttl: int): Option<RunRows> {
    var attempts := if g.row.status.Running? then Expired(g.attempts, now) else g.attempts;
    var row := LeasedRow(g.row, workerId, now, ttl);
    if row.attempt in attempts || row.fence in g.fences then None
    else
      Some(g.(row := row,
           attempts := attempts[row.attempt := AttemptRow(row.attempt, workerId, row.fence, AttemptRunning, now, None, None)],
           fences := g.fences + {row.fence}))
  }

  function RenewedRow(row: RunRow, now: Time, ttl: int): RunRow {
    row.(leaseUntil := Some(now + ttl), updatedAt := now)
  }

  /** Inserting an event; None when its primary key is taken. */
  function AddEvent(g: RunRows, event: RunEvent): Option<RunRows> {
    if event.sequence in g.events then None else Some(g.(events := g.events[event.sequence := event]))
  }

  function AnnouncementOf(event: RunEvent, id: nat): Outbox.OutboxRow {
    Outbox.OutboxRow(id, "RUN", event.runId, event.event, event, 0, event.occurredAt, None, event.occurredAt, None, None, 0, None)
  }

  function AdvancedEvent(g: RunRows, event: EventType, payload: Payload, now: Time): RunEvent {
    RunEvent(g.row.id, g.row.lastEventSeq + 1, event, now, payload)
  }

  function AppendRows(g: RunRows, event: EventType, payload: Payload, now: Time): Option<RunRows> {
    AddEvent(g.(row := g.row.(lastEventSeq := g.row.lastEventSeq + 1, updatedAt := now)), AdvancedEvent(g, event, payload, now))
  }

  function AttemptStatusFor(status: RunStatus): AttemptStatus {
    match status
    case Succeeded => AttemptSucceeded
    case Cancelled => AttemptCancelled
    case _ => AttemptFailed
  }

  function FinishedRow(row: RunRow, result: FinalResult, now: Time): RunRow {
    row.(status := result.status, finalResult := Some(result), lastEventSeq := row.lastEventSeq + 1,
    leaseOwner := None, leaseUntil := None, updatedAt := now)
  }

  function ClosedAttempts(attempts: map<nat, AttemptRow>, n: nat, result: FinalResult, now: Time): map<nat, AttemptRow> {
    if n in attempts && attempts[n].status == AttemptRunning then
      attempts[n := attempts[n].(status := AttemptStatusFor(result.status), finishedAt := Some(now), error := NullableString(result.error))]
    else attempts
  }

  function FinishRows(g: RunRows, result: FinalResult, event: EventType, now: Time): Option<RunRows> {
    AddEvent(g.(row := FinishedRow(g.row, result, now), attempts := ClosedAttempts(g.attempts, g.row.attempt, result, now)),
             AdvancedEvent(g, event, ResultPayload(result), now))
  }

  function NewRow(request: RunRequest, now: Time): RunRow {
    RunRow(request.runId, request.tenantId, request.idempotencyKey, HashOf(request), request.input, request.mode,
           request.manifest, Queued, NullableTime(request.deadline), None, None, None, 0, 0, 1, None, now, now)
  }

  function NewRows(request: RunRequest, now: Time): RunRows {
    RunRows(NewRow(request, now), map[], {}, map[1 := CreatedEvent(request, now)], None)
  }

  // Transactions

  /** Committing one run's rows, with the announcement of an event if there is a new one. */
  function Commit(t: Tables, id: string, g: RunRows, event: Option<RunEvent>): Tables {
    var t' := t.(runs := t.runs[id := g]);
    if event.None? then t'
    else t'.(outbox := t.outbox + [AnnouncementOf(event.value, t.nextOutboxId)], nextOutboxId := t.nextOutboxId + 1)
  }

  function CreateRun(t: Tables, request: RunRequest, now: Time): (Tables, Result<(RunRecord, bool), SqlError>) {
    var pair := (request.tenantId, request.idempotencyKey);
    if !Storable(request) then (t, Err(BadText))
    else if pair in t.pairs && t.pairs[pair] in t.runs then
      var existing := RecordOf(t.runs[t.pairs[pair]].row);
      if existing.requestHash != HashOf(request) then (t, Err(Known(IdempotencyConflict))) else (t, Ok((existing, false)))
    else if request.runId in t.runs then (t, Err(Violation))
    else
      (Commit(t.(pairs := t.pairs[pair := request.runId]), request.runId, NewRows(request, now), Some(CreatedEvent(request, now))),
       Ok((RecordOf(NewRow(request, now)), true)))
  }

  /** Leasing the run that the queue query returned. */
  function LeaseRun(t: Tables, id: string, workerId: string, now: Time, ttl: int): (Tables, Result<Lease, SqlError>)
    requires id in t.runs
  {
    if !NulFree(workerId) then (t, Err(BadText))
    else
      match LeaseRows(t.runs[id], workerId, now, ttl)
      case None => (t, Err(Violation))
      case Some(g) => (Commit(t, id, g, None), Ok(LeaseOf(RecordOf(g.row))))
  }

  predicate HoldsRun(t: Tables, id: string, workerId: string, fence: nat, now: Time) {
    id in t.runs && HoldsRow(t.runs[id].row, workerId, fence, now)
  }

  function RenewLease(t: Tables, id: string, workerId: string, fence: nat, now: Time, ttl: int): (Tables, Result<Time, SqlError>) {
    if workerId == "" || ttl <= 0 then (t, Err(Known(InvalidTransition)))
    else if !HoldsRun(t, id, workerId, fence, now) then (t, Err(Known(LeaseLost)))
    else (Commit(t, id, t.runs[id].(row := RenewedRow(t.runs[id].row, now, ttl)), None), Ok(now + ttl))
  }

  function AppendEvent(t: Tables, id: string, workerId: string, fence: nat, event: EventType, payload: Payload, now: Time)
    : (Tables, Result<RunEvent, SqlError>)
  {
    if workerId == "" || !HoldsRun(t, id, workerId, fence, now) then (t, Err(Known(LeaseLost)))
    else if !StorablePayload(payload) then (t, Err(BadText))
    else
      var appended := AdvancedEvent(t.runs[id], event, payload, now);
      match AppendRows(t.runs[id], event, payload, now)
      case None => (t, Err(Violation))
      case Some(g) => (Commit(t, id, g, Some(appended)), Ok(appended))
  }

  function SaveCheckpoint(t: Tables, workerId: string, checkpoint: Checkpoint): (Tables, Result<(), SqlError>) {
    var id := checkpoint.runId;
    if workerId == "" || !HoldsRun(t, id, workerId, checkpoint.fence, checkpoint.createdAt) then (t, Err(Known(LeaseLost)))
    else
      var g := t.runs[id];
      if checkpoint.eventSequence > g.row.lastEventSeq then (t, Err(Known(CheckpointAhead)))
      else if g.checkpoint.Some? && g.checkpoint.value.eventSequence > checkpoint.eventSequence then (t, Err(Known(StaleCheckpoint)))
      else if !StorableState(checkpoint.state) then (t, Err(BadText))
      else (Commit(t, id, g.(checkpoint := Some(checkpoint)), None), Ok(()))
  }

  function FinishRun(t: Tables, id: string, workerId: string, fence: nat, result: FinalResult, event: EventType, now: Time)
    : (Tables, Result<RunEvent, SqlError>)
  {
    if !ValidTerminalEvent(result, event) then (t, Err(Known(InvalidTransition)))
    else if !StorableResult(result) then (t, Err(BadText))
    else if !HoldsRun(t, id, workerId, fence, now) then (t, Err(Known(LeaseLost)))
    else
      var appended := AdvancedEvent(t.runs[id], event, ResultPayload(result), now);
      match FinishRows(t.runs[id], result, event, now)
      case None => (t, Err(Violation))
      case Some(g) => (Commit(t, id, g, Some(appended)), Ok(appended))
  }

  // One call, as in the store

  ghost predicate Enabled(t: Tables, call: Call) {
    call.LeaseNext? ==> call.workerId != "" && 0 < call.ttl && IsFirst(t.runs, call.runId, call.now)
  }

  ghost function After(t: Tables, call: Call): Tables
    requires Enabled(t, call)
  {
    match call
    case Create(request, now) => CreateRun(t, request, now).0
    case LeaseNext(id, workerId, now, ttl) => LeaseRun(t, id, workerId, now, ttl).0
    case Renew(id, workerId, fence, now, ttl) => RenewLease(t, id, workerId, fence, now, ttl).0
    case Append(id, workerId, fence, event, payload, now) => AppendEvent(t, id, workerId, fence, event, payload, now).0
    case Save(workerId, checkpoint) => SaveCheckpoint(t, workerId, checkpoint).0
    case Finish(id, workerId, fence, result, event, now) => FinishRun(t, id, workerId, fence, result, event, now).0
  }

  ghost predicate Succeeds(t: Tables, call: Call)
    requires Enabled(t, call)
  {
    match call
    case Create(request, now) => CreateRun(t, request, now).1.Ok?
    case LeaseNext(id, workerId, now, ttl) => LeaseRun(t, id, workerId, now, ttl).1.Ok?
    case Renew(id, workerId, fence, now, ttl) => RenewLease(t, id, workerId, fence, now, ttl).1.Ok?
    case Append(id, workerId, fence, event, payload, now) => AppendEvent(t, id, workerId, fence, event, payload, now).1.Ok?
    case Save(workerId, checkpoint) => SaveCheckpoint(t, workerId, checkpoint).1.Ok?
    case Finish(id, workerId, fence, result, event, now) => FinishRun(t, id, workerId, fence, result, event, now).1.Ok?
  }
}
