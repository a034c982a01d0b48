/**
  Creations and announcements of the SQL repository as its callers see them, told on the fields of requests,
  runs and outbox rows.
 */
module PostgresCreations {
  import opened Domain
  import opened Store
  import opened PostgresRefinement
  import opened PostgresSimulation
  import opened PostgresHistory
  import opened PostgresTexts
  import C = Creations
  import H = StoreHistory
  import P = Postgres
  import Outbox

  ghost predicate HasNul(request: RunRequest) {
    exists text :: IsTextOfRequest(request, text) && '\0' in text
  }

  ghost predicate Known(t: P.Tables, request: RunRequest) {
    exists id :: id in t.runs && HasPair(t.runs[id].row, request)
  }

  predicate HasPair(row: P.RunRow, request: RunRequest) {
    row.tenantId == request.tenantId && row.idempotencyKey == request.idempotencyKey
  }

  lemma TenantsNulFree(t: P.Tables, repo: Repo)
    requires Matches(t, repo)
    ensures forall id :: id in repo.runs ==> '\0' !in repo.runs[id].record.tenantId
    ensures forall id :: id in t.runs ==> id in repo.runs && repo.runs[id].record == P.RecordOf(t.runs[id].row)
    ensures t.runs.Keys == repo.runs.Keys
  {
    forall id | id in repo.runs
      ensures '\0' !in repo.runs[id].record.tenantId
    {
      assert repo.runs[id] == EntryOf(id, t.runs[id]);
      var row := t.runs[id].row;
      assert (row.tenantId, row.idempotencyKey) in t.pairs;
    }
  }

  lemma KnownMatches(t: P.Tables, repo: Repo, request: RunRequest)
    requires t.runs.Keys == repo.runs.Keys
    requires forall id :: id in t.runs ==> repo.runs[id].record == P.RecordOf(t.runs[id].row)
    ensures Known(t, request) <==> C.Known(repo, request)
    ensures forall id :: id in t.runs ==> (HasPair(t.runs[id].row, request) <==> C.SamePair(repo.runs[id].record, request))
  {
    if Known(t, request) {
      var id :| id in t.runs && HasPair(t.runs[id].row, request);
      assert C.SamePair(repo.runs[id].record, request);
    }
    if C.Known(repo, request) {
      var id :| id in repo.runs && C.SamePair(repo.runs[id].record, request);
      assert HasPair(t.runs[id].row, request);
    }
  }

  /** The store's answer to a creation is the answer of the tables that represent it. */
  lemma SameAnswer(t: P.Tables, repo: Repo, request: RunRequest, now: Time)
    requires Matches(t, repo) && Valid(repo) && P.Storable(request)
    ensures match Store.CreateRun(repo, request, now).1
            case Ok(answer) => P.CreateRun(t, request, now).1 == Ok(answer)
            case Err(IdempotencyConflict) => P.CreateRun(t, request, now).1 == Err(P.Known(IdempotencyConflict))
            case Err(_) => P.CreateRun(t, request, now).1 == Err(P.Violation)
  {
    PostgresSimulation.SamePair(t, repo, request.tenantId, request.idempotencyKey);
    RunAgrees(t, repo, request.runId);
    CreationAgrees(t, repo, request, now);
  }

  /** A pair that has a run: the same body gets that run, any other is a conflict. */
  lemma KnownPair(t: P.Tables, repo: Repo, request: RunRequest, now: Time, id: string)
    requires Matches(t, repo) && Valid(repo) && !HasNul(request)
    requires id in t.runs && HasPair(t.runs[id].row, request)
    ensures P.CreateRun(t, request, now).1 ==
            if C.SameBody(P.RecordOf(t.runs[id].row), request) then Ok((P.RecordOf(t.runs[id].row), false))
            else Err(P.Known(IdempotencyConflict))
  {
    RequestTexts(request);
    SameAnswer(t, repo, request, now);
    RunAgrees(t, repo, id);
    C.KnownPair(repo, request, now, id);
  }

  lemma NewToStore(t: P.Tables, repo: Repo, request: RunRequest)
    requires Matches(t, repo) && !HasNul(request) && !Known(t, request)
    ensures !C.Known(repo, request) && !C.Clashes(repo, request)
    ensures request.runId in repo.runs <==> request.runId in t.runs
  {
    TenantsNulFree(t, repo);
    KnownMatches(t, repo, request);
    assert IsTextOfRequest(request, request.tenantId);
    C.NoClash(repo, request);
  }

  /** A new pair: its run is made unless the run id is taken. */
  lemma NewPair(t: P.Tables, repo: Repo, request: RunRequest, now: Time)
    requires Matches(t, repo) && Valid(repo) && !HasNul(request) && !Known(t, request)
    ensures var answer := P.CreateRun(t, request, now).1;
            if request.runId in t.runs then answer == Err(P.Violation)
            else answer.Ok? && answer.value.1 && answer.value.0.id == request.runId && C.SameBody(answer.value.0, request)
  {
    RequestTexts(request);
    SameAnswer(t, repo, request, now);
    NewToStore(t, repo, request);
    C.NewPair(repo, request, now);
  }

  /** Text with a NUL character is what the columns refuse, and nothing else is. */
  lemma BadTextRefused(t: P.Tables, request: RunRequest, now: Time)
    ensures P.CreateRun(t, request, now).1 == Err(P.BadText) <==> HasNul(request)
    ensures P.CreateRun(t, request, now).1.Err? ==> P.CreateRun(t, request, now).0 == t
  {
    RequestTexts(request);
  }

  /** How a creation with storable text is answered. */
  ghost predicate Answers(t: P.Tables, request: RunRequest, answer: Result<(RunRecord, bool), P.SqlError>) {
    && (answer == Err(P.Known(IdempotencyConflict)) <==>
          exists id :: id in t.runs && HasPair(t.runs[id].row, request) && !C.SameBody(P.RecordOf(t.runs[id].row), request))
    && (answer == Err(P.Violation) <==> !Known(t, request) && request.runId in t.runs)
    && (answer.Ok? && answer.value.1 <==> !Known(t, request) && request.runId !in t.runs)
  }

  lemma KnownAnswers(t: P.Tables, request: RunRequest, id: string, answer: Result<(RunRecord, bool), P.SqlError>)
    requires PairsOk(t) && id in t.runs && HasPair(t.runs[id].row, request)
    requires answer == if C.SameBody(P.RecordOf(t.runs[id].row), request) then Ok((P.RecordOf(t.runs[id].row), false))
                       else Err(P.Known(IdempotencyConflict))
    ensures Answers(t, request, answer)
  {
    OneRunOfPair(t, request, id);
  }

  lemma NewAnswers(t: P.Tables, request: RunRequest, answer: Result<(RunRecord, bool), P.SqlError>)
    requires !Known(t, request)
    requires if request.runId in t.runs then answer == Err(P.Violation) else answer.Ok? && answer.value.1
    ensures Answers(t, request, answer)
  {
  }

  lemma KnownDecided(t: P.Tables, repo: Repo, request: RunRequest, now: Time, id: string)
    requires Matches(t, repo) && Valid(repo) && !HasNul(request) && id in t.runs && HasPair(t.runs[id].row, request)
    ensures Answers(t, request, P.CreateRun(t, request, now).1)
  {
    KnownPair(t, repo, request, now, id);
    KnownAnswers(t, request, id, P.CreateRun(t, request, now).1);
  }

  lemma NewDecided(t: P.Tables, repo: Repo, request: RunRequest, now: Time)
    requires Matches(t, repo) && Valid(repo) && !HasNul(request) && !Known(t, request)
    ensures Answers(t, request, P.CreateRun(t, request, now).1)
  {
    NewPair(t, repo, request, now);
    NewAnswers(t, request, P.CreateRun(t, request, now).1);
  }

  lemma OneRunOfPair(t: P.Tables, request: RunRequest, id: string)
    requires PairsOk(t) && id in t.runs && HasPair(t.runs[id].row, request)
    ensures forall other :: other in t.runs && HasPair(t.runs[other].row, request) ==> other == id
  {
  }

  /**
    Every creation in any reachable tables: refused for a NUL character in its text; answered with the pair's run,
    or as a conflict, according to the body; refused for a taken run id; and otherwise made.
   */
  lemma CreationDecided(steps: seq<Step>, s: State, request: RunRequest, now: Time)
    requires Leads(EMPTY, steps, s)
    ensures var answer := P.CreateRun(s.tables, request, now).1;
            && (answer == Err(P.BadText) <==> HasNul(request))
            && (answer == Err(P.Known(IdempotencyConflict)) <==>
                  && !HasNul(request)
                  && exists id :: id in s.tables.runs && HasPair(s.tables.runs[id].row, request)
                                  && !C.SameBody(P.RecordOf(s.tables.runs[id].row), request))
            && (answer == Err(P.Violation) <==> !HasNul(request) && !Known(s.tables, request) && request.runId in s.tables.runs)
            && (answer.Ok? && answer.value.1 <==>
                  !HasNul(request) && !Known(s.tables, request) && request.runId !in s.tables.runs)
  {
    var repo := TablesRefineStore(steps, s);
    H.HistoryValid(EMPTY_REPO, AllCalls(steps), repo);
    BadTextRefused(s.tables, request, now);
    if !HasNul(request) {
      if Known(s.tables, request) {
        var id :| id in s.tables.runs && HasPair(s.tables.runs[id].row, request);
        KnownDecided(s.tables, repo, request, now, id);
      } else {
        NewDecided(s.tables, repo, request, now);
      }
    }
  }

  /** A committed creation, whatever the tables go through since, and a second one for its pair. */
  lemma RetriedCreation(steps: seq<Step>, s: State, first: RunRequest, now: Time, later: seq<Step>, s': State,
                        second: RunRequest, at: Time)
    requires Leads(EMPTY, steps, s) && P.CreateRun(s.tables, first, now).1.Ok?
    requires Leads(s.(tables := P.CreateRun(s.tables, first, now).0), later, s')
    requires second.tenantId == first.tenantId && second.idempotencyKey == first.idempotencyKey && !HasNul(second)
    ensures var id := P.CreateRun(s.tables, first, now).1.value.0.id;
            && id in s'.tables.runs
            && P.CreateRun(s'.tables, second, at).1 ==
               if second.input == first.input && second.mode == first.mode && second.deadline == first.deadline
                  && second.manifest == first.manifest
               then Ok((P.RecordOf(s'.tables.runs[id].row), false)) else Err(P.Known(IdempotencyConflict))
  {
    var create := Call.Create(first, now);
    var middle := PostgresHistory.After(s, Transaction(create));
    var repo := HistoryMatches(EMPTY, EMPTY_REPO, steps, s);
    H.HistoryValid(EMPTY_REPO, AllCalls(steps), repo);
    RequestTexts(first);
    BadTextRefused(s.tables, first, now);
    SameAnswer(s.tables, repo, first, now);
    TransactionMatches(s, repo, create);
    CallKeepsValid(repo, create);
    var repo' := HistoryMatches(middle, Store.After(repo, create), later, s');
    H.HistoryValid(Store.After(repo, create), AllCalls(later), repo');
    RequestTexts(second);
    SameAnswer(s'.tables, repo', second, at);
    C.RetriedCreation(repo, first, now, AllCalls(later), repo', second, at);
    RunAgrees(s'.tables, repo', P.CreateRun(s.tables, first, now).1.value.0.id);
  }

  // Announcements

  /** An announcement that no publisher has touched, due from the time of its event on. */
  predicate Untouched(row: Outbox.OutboxRow, event: RunEvent) {
    && row.aggregateType == "RUN" && row.aggregateId == event.runId && row.eventType == event.event && row.payload == event
    && row.createdAt == event.occurredAt && row.nextAttemptAt == event.occurredAt
    && row.attempts == 0 && row.leaseToken == 0 && row.publishedAt == None
    && row.leaseOwner == None && row.leaseUntil == None && row.lastError == None
  }

  /** The event that a committed call writes. */
  function EventOf(t: P.Tables, call: Call): Option<RunEvent> {
    match call
    case Create(request, now) =>
      var answer := P.CreateRun(t, request, now).1;
      if answer.Ok? && answer.value.1
      then Some(RunEvent(request.runId, 1, RunCreated, now, CreatedPayload(request.mode, request.manifest))) else None
    case Append(id, workerId, fence, event, payload, now) =>
      var answer := P.AppendEvent(t, id, workerId, fence, event, payload, now).1;
      if answer.Ok? then Some(answer.value) else None
    case Finish(id, workerId, fence, result, event, now) =>
      var answer := P.FinishRun(t, id, workerId, fence, result, event, now).1;
      if answer.Ok? then Some(answer.value) else None
    case _ => None
  }

  /** Each committed event is announced in the same transaction, once, under a new id; nothing else is. */
  lemma EventAnnounced(t: P.Tables, call: Call)
    requires P.Enabled(t, call)
    ensures var t', event := P.After(t, call), EventOf(t, call);
            if event.None? then t'.outbox == t.outbox
            else
              && |t'.outbox| == |t.outbox| + 1 && t'.outbox[..|t.outbox|] == t.outbox
              && t'.outbox[|t.outbox|].id == t.nextOutboxId && t'.nextOutboxId == t.nextOutboxId + 1
              && Untouched(t'.outbox[|t.outbox|], event.value)
  {
  }
}
