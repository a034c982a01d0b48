/**
  Idempotent creation as a client sees it, told on the fields of its requests: which creations are
  answered with a run, which with the run of an earlier request, and which are refused.
 */
module Creations {
  import opened Domain
  import opened Store
  import opened StoreHistory

  predicate SamePair(record: RunRecord, request: RunRequest) {
    record.tenantId == request.tenantId && record.idempotencyKey == request.idempotencyKey
  }

  /** The rest of what a client sends; a run id is the server's choice unless the client makes one. */
  predicate SameBody(record: RunRecord, request: RunRequest) {
    && record.input == request.input
    && record.mode == request.mode
    && record.deadline == request.deadline
    && record.manifest == request.manifest
  }

  ghost predicate Known(repo: Repo, request: RunRequest) {
    exists id :: id in repo.runs && SamePair(repo.runs[id].record, request)
  }

  predicate Joins(record: RunRecord, request: RunRequest) {
    record.tenantId + "\0" + record.idempotencyKey == request.tenantId + "\0" + request.idempotencyKey
  }

  /** Another pair's run has the joined key of this one. */
  ghost predicate Clashes(repo: Repo, request: RunRequest) {
    exists id :: id in repo.runs && !SamePair(repo.runs[id].record, request) && Joins(repo.runs[id].record, request)
  }

  /** A run that waits for its first lease. */
  ghost predicate IsFresh(entry: Entry, request: RunRequest, now: Time) {
    var record := entry.record;
    && record.id == request.runId && SamePair(record, request) && SameBody(record, request)
    && record.status == Queued && record.leaseOwner == "" && record.leaseUntil == 0
    && record.fence == 0 && record.attempt == 0
    && record.lastEventSeq == 1 && record.finalResult == None
    && record.createdAt == now && record.updatedAt == now
    && entry.log == [RunEvent(request.runId, 1, RunCreated, now, CreatedPayload(request.mode, request.manifest))]
    && entry.checkpoint == None
  }

  /** Looking a joined key up finds the one run that has it. */
  lemma Lookup(repo: Repo, request: RunRequest, id: string)
    requires Indexed(repo) && id in repo.runs && Joins(repo.runs[id].record, request)
    ensures var joined := JoinedKey(request.tenantId, request.idempotencyKey);
            joined in repo.byIdempotency && repo.byIdempotency[joined] == id
  {
  }

  lemma NothingFound(repo: Repo, request: RunRequest)
    requires Indexed(repo) && !Known(repo, request) && !Clashes(repo, request)
    ensures JoinedKey(request.tenantId, request.idempotencyKey) !in repo.byIdempotency
  {
    var joined := JoinedKey(request.tenantId, request.idempotencyKey);
    if joined in repo.byIdempotency {
      var id := repo.byIdempotency[joined];
      assert id in repo.runs && Joins(repo.runs[id].record, request);
    }
  }

  /** The pair's run, if there is one, is the answer to the same body and a conflict for any other. */
  lemma KnownPair(repo: Repo, request: RunRequest, now: Time, id: string)
    requires Valid(repo) && id in repo.runs && SamePair(repo.runs[id].record, request)
    ensures CreateRun(repo, request, now) ==
            (repo, if SameBody(repo.runs[id].record, request) then Ok((repo.runs[id].record, false)) else Err(IdempotencyConflict))
  {
    Lookup(repo, request, id);
    assert EntryOk(id, repo.runs[id]);
  }

  lemma ClashingPair(repo: Repo, request: RunRequest, now: Time)
    requires Valid(repo) && !Known(repo, request) && Clashes(repo, request)
    ensures CreateRun(repo, request, now) == (repo, Err(IdempotencyConflict))
  {
    var id :| id in repo.runs && !SamePair(repo.runs[id].record, request) && Joins(repo.runs[id].record, request);
    Lookup(repo, request, id);
    assert EntryOk(id, repo.runs[id]);
  }

  lemma NewPair(repo: Repo, request: RunRequest, now: Time)
    requires Valid(repo) && !Known(repo, request) && !Clashes(repo, request)
    ensures var (repo', answer) := CreateRun(repo, request, now);
            if request.runId in repo.runs then repo' == repo && answer == Err(RunIdExists)
            else
              && request.runId in repo'.runs && IsFresh(repo'.runs[request.runId], request, now)
              && repo'.runs == repo.runs[request.runId := repo'.runs[request.runId]]
              && answer == Ok((repo'.runs[request.runId].record, true))
  {
    NothingFound(repo, request);
  }

  /**
    Every creation, decided on the fields of the runs there are: a conflict exactly if the pair's run has another
    body or another pair has the same joined key, a taken id exactly if the pair is new and the id is not.
   */
  lemma CreationDecided(repo: Repo, request: RunRequest, now: Time)
    requires Valid(repo)
    ensures var (repo', answer) := CreateRun(repo, request, now);
            && (answer == Err(IdempotencyConflict) <==>
                  || (exists id :: id in repo.runs && SamePair(repo.runs[id].record, request)
                                   && !SameBody(repo.runs[id].record, request))
                  || (!Known(repo, request) && Clashes(repo, request)))
            && (answer == Err(RunIdExists) <==>
                  !Known(repo, request) && !Clashes(repo, request) && request.runId in repo.runs)
            && (answer.Err? ==> repo' == repo && answer.error in {IdempotencyConflict, RunIdExists})
            && (answer.Ok? && answer.value.1 <==>
                  !Known(repo, request) && !Clashes(repo, request) && request.runId !in repo.runs)
  {
    if Known(repo, request) {
      var id :| id in repo.runs && SamePair(repo.runs[id].record, request);
      KnownPair(repo, request, now, id);
      forall other | other in repo.runs && SamePair(repo.runs[other].record, request)
        ensures other == id
      {
        Lookup(repo, request, id);
        Lookup(repo, request, other);
      }
    } else if Clashes(repo, request) {
      ClashingPair(repo, request, now);
    } else {
      NewPair(repo, request, now);
    }
  }

  /** Tenants without NUL characters never clash. */
  lemma NoClash(repo: Repo, request: RunRequest)
    requires '\0' !in request.tenantId
    requires forall id :: id in repo.runs ==> '\0' !in repo.runs[id].record.tenantId
    ensures !Clashes(repo, request)
  {
    forall id | id in repo.runs && Joins(repo.runs[id].record, request)
      ensures SamePair(repo.runs[id].record, request)
    {
      var record := repo.runs[id].record;
      var a, b, c, d := record.tenantId, record.idempotencyKey, request.tenantId, request.idempotencyKey;
      var joined := a + "\0" + b;
      assert joined[|a|] == '\0' && joined[|c|] == '\0';
      assert forall i :: 0 <= i < |a| ==> joined[i] == a[i];
      assert forall i :: 0 <= i < |c| ==> joined[i] == c[i];
      assert joined[..|a|] == a && joined[..|c|] == c;
      assert joined[|a| + 1..] == b && joined[|c| + 1..] == d;
    }
  }

  /**
    Retrying is safe: after a creation and whatever calls since, the same request under any run id is answered
    with the same run as it is by then, and any other request for the pair is a conflict.
   */
  lemma RetriedCreation(repo: Repo, first: RunRequest, now: Time, calls: seq<Call>, repo': Repo, second: RunRequest, later: Time)
    requires Valid(repo) && CreateRun(repo, first, now).1.Ok?
    requires Leads(CreateRun(repo, first, now).0, calls, repo')
    requires second.tenantId == first.tenantId && second.idempotencyKey == first.idempotencyKey
    ensures var id := CreateRun(repo, first, now).1.value.0.id;
            && id in repo'.runs
            && CreateRun(repo', second, later) ==
               (repo', if second.input == first.input && second.mode == first.mode && second.deadline == first.deadline
                          && second.manifest == first.manifest
                       then Ok((repo'.runs[id].record, false)) else Err(IdempotencyConflict))
  {
    var middle := CreateRun(repo, first, now).0;
    var id := CreateRun(repo, first, now).1.value.0.id;
    CreateAnswersCaller(repo, first, now);
    CreateKeepsValid(repo, first, now);
    HistoryValid(middle, calls, repo');
    HistoryGrows(middle, calls, repo', id);
    assert RequestFrom(repo'.runs[id].record) == first.(runId := id);
    KnownPair(repo', second, later, id);
  }
}
