/**
  The SQL repository refines the store: every transaction succeeds exactly when the store's operation does,
  returns the same, and leaves tables that represent the store's new value.
 */
module PostgresSimulation {
  import opened Domain
  import opened Store
  import opened PostgresRefinement
  import P = Postgres

  /** The tables and the store agree on one run. */
  ghost predicate SameRun(t: P.Tables, repo: Repo, id: string) {
    && (id in t.runs <==> id in repo.runs)
    && (id in t.runs ==> RowsOk(id, t.runs[id]) && repo.runs[id] == EntryOf(id, t.runs[id]))
  }

  lemma RunAgrees(t: P.Tables, repo: Repo, id: string)
    requires Matches(t, repo)
    ensures SameRun(t, repo, id)
  {
  }

  // Creation

  /** The unique index on pairs and the index on joined keys find the same run. */
  ghost predicate SameLookup(t: P.Tables, repo: Repo, tenantId: string, key: string) {
    && ((tenantId, key) in t.pairs <==> JoinedKey(tenantId, key) in repo.byIdempotency)
    && ((tenantId, key) in t.pairs ==>
          var id := t.pairs[(tenantId, key)];
          id == repo.byIdempotency[JoinedKey(tenantId, key)] && id in t.runs && SameRun(t, repo, id))
  }

  lemma SamePair(t: P.Tables, repo: Repo, tenantId: string, key: string)
    requires Matches(t, repo) && Indexed(repo) && P.NulFree(tenantId) && P.NulFree(key)
    ensures SameLookup(t, repo, tenantId, key)
  {
    var joined := JoinedKey(tenantId, key);
    if joined in repo.byIdempotency {
      var id := repo.byIdempotency[joined];
      var record := repo.runs[id].record;
      assert repo.runs[id] == EntryOf(id, t.runs[id]);
      assert (record.tenantId, record.idempotencyKey) in t.pairs;
      JoinedKeyInjective(record.tenantId, record.idempotencyKey, tenantId, key);
    }
  }

  lemma NewPairMatches(t: P.Tables, repo: Repo, request: RunRequest)
    requires KeysMatch(t.pairs, repo.byIdempotency) && PairsOk(t) && P.Storable(request)
    requires (request.tenantId, request.idempotencyKey) !in t.pairs
    ensures KeysMatch(t.pairs[(request.tenantId, request.idempotencyKey) := request.runId],
                      repo.byIdempotency[JoinedKey(request.tenantId, request.idempotencyKey) := request.runId])
  {
    forall p | p in t.pairs
      ensures JoinedKey(p.0, p.1) != JoinedKey(request.tenantId, request.idempotencyKey)
    {
      if JoinedKey(p.0, p.1) == JoinedKey(request.tenantId, request.idempotencyKey) {
        JoinedKeyInjective(p.0, p.1, request.tenantId, request.idempotencyKey);
        assert false;
      }
    }
  }

  lemma NewPairOk(t: P.Tables, request: RunRequest, now: Time)
    requires PairsOk(t) && P.Storable(request) && request.runId !in t.runs
    requires (request.tenantId, request.idempotencyKey) !in t.pairs
    ensures PairsOk(t.(runs := t.runs[request.runId := P.NewRows(request, now)],
                    pairs := t.pairs[(request.tenantId, request.idempotencyKey) := request.runId]))
  {
  }

  lemma CreationAgrees(t: P.Tables, repo: Repo, request: RunRequest, now: Time)
    requires P.Storable(request)
    requires SameLookup(t, repo, request.tenantId, request.idempotencyKey) && SameRun(t, repo, request.runId)
    ensures match Store.CreateRun(repo, request, now).1
            case Ok(answer) => P.CreateRun(t, request, now).1 == Ok(answer)
            case Err(IdempotencyConflict) => P.CreateRun(t, request, now).1 == Err(P.Known(IdempotencyConflict))
            case Err(_) => P.CreateRun(t, request, now).1 == Err(P.Violation)
  {
  }

  lemma InsertionMatches(t: P.Tables, repo: Repo, request: RunRequest, now: Time)
    requires Matches(t, repo) && P.Storable(request) && request.runId !in t.runs
    requires (request.tenantId, request.idempotencyKey) !in t.pairs
    ensures Matches(t.(runs := t.runs[request.runId := P.NewRows(request, now)],
                    pairs := t.pairs[(request.tenantId, request.idempotencyKey) := request.runId]),
                    Repo(repo.runs[request.runId := NewEntry(request, now)],
                         repo.byIdempotency[JoinedKey(request.tenantId, request.idempotencyKey) := request.runId]))
  {
    NewRowsOk(request, now);
    NewPairOk(t, request, now);
    NewPairMatches(t, repo, request);
    CommitKeepsRuns(t.runs, repo.runs, request.runId, P.NewRows(request, now));
  }

  /** A creation inserts on both sides, or on neither. */
  lemma CreationSame(t: P.Tables, repo: Repo, request: RunRequest, now: Time)
    requires P.Storable(request)
    requires SameLookup(t, repo, request.tenantId, request.idempotencyKey) && SameRun(t, repo, request.runId)
    ensures var pair := (request.tenantId, request.idempotencyKey);
            if pair in t.pairs || request.runId in t.runs then
              P.CreateRun(t, request, now).0 == t && Store.CreateRun(repo, request, now).0 == repo
            else
              && P.CreateRun(t, request, now).0.runs == t.runs[request.runId := P.NewRows(request, now)]
              && P.CreateRun(t, request, now).0.pairs == t.pairs[pair := request.runId]
              && Store.CreateRun(repo, request, now).0 ==
                 Repo(repo.runs[request.runId := NewEntry(request, now)],
                      repo.byIdempotency[JoinedKey(request.tenantId, request.idempotencyKey) := request.runId])
  {
  }

  lemma CreationMatches(t: P.Tables, repo: Repo, request: RunRequest, now: Time)
    requires Matches(t, repo) && P.Storable(request)
    requires SameLookup(t, repo, request.tenantId, request.idempotencyKey)
    ensures Matches(P.CreateRun(t, request, now).0, Store.CreateRun(repo, request, now).0)
  {
    RunAgrees(t, repo, request.runId);
    CreationSame(t, repo, request, now);
    if (request.tenantId, request.idempotencyKey) !in t.pairs && request.runId !in t.runs {
      InsertionMatches(t, repo, request, now);
    }
  }

  /** A call with a text that no column takes is refused, and changes nothing. */
  lemma UnstorableRefused(t: P.Tables, call: Call)
    requires P.Enabled(t, call) && !P.StorableCall(call)
    ensures P.After(t, call) == t && !P.Succeeds(t, call)
  {
  }

  // Leasing

  /** The queue query and the store's queue hand out the same run. */
  lemma SameQueue(t: P.Tables, repo: Repo, id: string, now: Time)
    requires Matches(t, repo)
    ensures P.IsFirst(t.runs, id, now) <==> IsNext(repo, id, now)
  {
    forall other | other in t.runs
      ensures P.LeasableRow(t.runs[other].row, now) <==> Leasable(repo.runs[other].record, now)
    {
      LeasingAgrees(other, t.runs[other].row, now);
    }
    if id in t.runs {
      forall other | other in t.runs
        ensures P.RowBefore(t.runs[id].row, t.runs[other].row) <==> Before(repo.runs[id].record, repo.runs[other].record)
      {
        OrderAgrees(id, t.runs[id].row, other, t.runs[other].row);
      }
    }
  }

  lemma LeaseSame(t: P.Tables, repo: Repo, id: string, workerId: string, now: Time, ttl: int)
    requires SameRun(t, repo, id) && id in t.runs && workerId != "" && P.NulFree(workerId)
    requires P.LeasableRow(t.runs[id].row, now)
    ensures var entry := Leased(repo.runs[id], workerId, now, ttl);
            && P.LeaseRun(t, id, workerId, now, ttl).1 == Ok(LeaseOf(entry.record))
            && SameStep(t, repo, id, P.LeaseRun(t, id, workerId, now, ttl).0, repo.(runs := repo.runs[id := entry]))
  {
    LeaseRowsOk(id, t.runs[id], workerId, now, ttl);
    assert Commits(t, id, P.LeaseRun(t, id, workerId, now, ttl).0, None);
  }

  // Writing under a lease

  lemma SameHolding(t: P.Tables, repo: Repo, id: string, workerId: string, fence: nat, now: Time)
    requires SameRun(t, repo, id)
    ensures P.HoldsRun(t, id, workerId, fence, now) <==> LeaseCheck(repo, id, workerId, fence, now).None?
    ensures P.HoldsRun(t, id, workerId, fence, now) ==> workerId != "" && t.runs[id].row.status.Running?
  {
    if id in t.runs {
      HoldingAgrees(id, t.runs[id].row, workerId, fence, now);
    }
  }

  /** Both sides refuse and change nothing, or both replace the rows of one run in the same way. */
  ghost predicate SameStep(t: P.Tables, repo: Repo, id: string, t': P.Tables, repo': Repo) {
    || (t' == t && repo' == repo)
    || (&& id in t.runs && id in t'.runs
        && RowsOk(id, t'.runs[id]) && SamePairOf(t'.runs[id].row, t.runs[id].row)
        && RowsOk(id, t.runs[id])
        && (exists event :: Commits(t, id, t', event))
        && repo' == repo.(runs := repo.runs[id := EntryOf(id, t'.runs[id])]))
  }

  /** One run's rows are replaced, and what its log gains is announced. */
  ghost predicate Commits(t: P.Tables, id: string, t': P.Tables, event: Option<RunEvent>)
    requires id in t.runs && id in t'.runs && EventsOk(id, t.runs[id]) && EventsOk(id, t'.runs[id])
  {
    && t' == P.Commit(t, id, t'.runs[id], event)
    && (match event
        case None => LogOf(id, t'.runs[id]) == LogOf(id, t.runs[id])
        case Some(e) => e.runId == id && LogOf(id, t'.runs[id]) == LogOf(id, t.runs[id]) + [e])
  }

  predicate SamePairOf(a: P.RunRow, b: P.RunRow) {
    a.tenantId == b.tenantId && a.idempotencyKey == b.idempotencyKey
  }

  lemma StepMatches(t: P.Tables, repo: Repo, id: string, t': P.Tables, repo': Repo)
    requires Matches(t, repo) && SameStep(t, repo, id, t', repo')
    ensures Matches(t', repo')
  {
    if t' != t || repo' != repo {
      var event :| Commits(t, id, t', event);
      CommitMatches(t, repo, id, t'.runs[id], event);
    }
  }

  lemma RenewalSame(t: P.Tables, repo: Repo, id: string, workerId: string, fence: nat, now: Time, ttl: int)
    requires SameRun(t, repo, id)
    ensures SameStep(t, repo, id, P.RenewLease(t, id, workerId, fence, now, ttl).0, Store.RenewLease(repo, id, workerId, fence, now, ttl).0)
    ensures match Store.RenewLease(repo, id, workerId, fence, now, ttl).1
            case Ok(until) => P.RenewLease(t, id, workerId, fence, now, ttl).1 == Ok(until)
            case Err(_) => P.RenewLease(t, id, workerId, fence, now, ttl).1.Err?
  {
    SameHolding(t, repo, id, workerId, fence, now);
    if P.HoldsRun(t, id, workerId, fence, now) && 0 < ttl {
      RenewRowsOk(id, t.runs[id], now, ttl);
      assert Commits(t, id, P.RenewLease(t, id, workerId, fence, now, ttl).0, None);
    }
  }

  lemma AppendSame(t: P.Tables, repo: Repo, id: string, workerId: string, fence: nat, event: EventType, payload: Payload, now: Time)
    requires SameRun(t, repo, id) && P.StorablePayload(payload)
    ensures SameStep(t, repo, id, P.AppendEvent(t, id, workerId, fence, event, payload, now).0,
                     Store.AppendEvent(repo, id, workerId, fence, event, payload, now).0)
    ensures match Store.AppendEvent(repo, id, workerId, fence, event, payload, now).1
            case Ok(appended) => P.AppendEvent(t, id, workerId, fence, event, payload, now).1 == Ok(appended)
            case Err(_) => P.AppendEvent(t, id, workerId, fence, event, payload, now).1.Err?
  {
    SameHolding(t, repo, id, workerId, fence, now);
    if P.HoldsRun(t, id, workerId, fence, now) {
      AppendRowsOk(id, t.runs[id], event, payload, now);
      assert Commits(t, id, P.AppendEvent(t, id, workerId, fence, event, payload, now).0,
                     Some(P.AdvancedEvent(t.runs[id], event, payload, now)));
    }
  }

  lemma SaveSame(t: P.Tables, repo: Repo, workerId: string, checkpoint: Checkpoint)
    requires SameRun(t, repo, checkpoint.runId) && P.StorableState(checkpoint.state)
    ensures SameStep(t, repo, checkpoint.runId, P.SaveCheckpoint(t, workerId, checkpoint).0,
                     Store.SaveCheckpoint(repo, workerId, checkpoint).0)
    ensures P.SaveCheckpoint(t, workerId, checkpoint).1.Ok? <==> Store.SaveCheckpoint(repo, workerId, checkpoint).1.Ok?
  {
    var id := checkpoint.runId;
    SameHolding(t, repo, id, workerId, checkpoint.fence, checkpoint.createdAt);
    if P.SaveCheckpoint(t, workerId, checkpoint).1.Ok? {
      assert Commits(t, id, P.SaveCheckpoint(t, workerId, checkpoint).0, None);
    }
  }

  lemma FinishSame(t: P.Tables, repo: Repo, id: string, workerId: string, fence: nat, result: FinalResult, event: EventType, now: Time)
    requires SameRun(t, repo, id) && P.StorableResult(result)
    ensures SameStep(t, repo, id, P.FinishRun(t, id, workerId, fence, result, event, now).0,
                     Store.FinishRun(repo, id, workerId, fence, result, event, now).0)
    ensures match Store.FinishRun(repo, id, workerId, fence, result, event, now).1
            case Ok(appended) => P.FinishRun(t, id, workerId, fence, result, event, now).1 == Ok(appended)
            case Err(_) => P.FinishRun(t, id, workerId, fence, result, event, now).1.Err?
  {
    SameHolding(t, repo, id, workerId, fence, now);
    if P.HoldsRun(t, id, workerId, fence, now) && ValidTerminalEvent(result, event) {
      TerminalTestsAgree(result.status, event);
      FinishRowsOk(id, t.runs[id], result, event, now);
      assert Commits(t, id, P.FinishRun(t, id, workerId, fence, result, event, now).0,
                     Some(P.AdvancedEvent(t.runs[id], event, ResultPayload(result), now)));
    }
  }

  /** A creation succeeds in the database exactly when the in-memory store accepts it and none of its text has a NUL character. */
  lemma CreationSucceeds(t: P.Tables, repo: Repo, request: RunRequest, now: Time)
    requires Matches(t, repo) && Indexed(repo)
    ensures P.CreateRun(t, request, now).1.Ok? <==> P.Storable(request) && Store.CreateRun(repo, request, now).1.Ok?
  {
    if P.Storable(request) {
      SamePair(t, repo, request.tenantId, request.idempotencyKey);
      RunAgrees(t, repo, request.runId);
      CreationAgrees(t, repo, request, now);
    }
  }

  // Any call

  /** The store's operation succeeds. */
  ghost predicate Succeeds(repo: Repo, call: Call)
    requires Enabled(repo, call)
  {
    match call
    case Create(request, now) => Store.CreateRun(repo, request, now).1.Ok?
    case LeaseNext(_, _, _, _) => true
    case Renew(id, workerId, fence, now, ttl) => Store.RenewLease(repo, id, workerId, fence, now, ttl).1.Ok?
    case Append(id, workerId, fence, event, payload, now) => Store.AppendEvent(repo, id, workerId, fence, event, payload, now).1.Ok?
    case Save(workerId, checkpoint) => Store.SaveCheckpoint(repo, workerId, checkpoint).1.Ok?
    case Finish(id, workerId, fence, result, event, now) => Store.FinishRun(repo, id, workerId, fence, result, event, now).1.Ok?
  }

  lemma CallSame(t: P.Tables, repo: Repo, call: Call)
    requires SameRun(t, repo, Target(call)) && !call.Create? && P.Enabled(t, call) && Enabled(repo, call) && P.StorableCall(call)
    ensures P.Succeeds(t, call) <==> Succeeds(repo, call)
    ensures SameStep(t, repo, Target(call), P.After(t, call), After(repo, call))
  {
    match call
    case LeaseNext(id, workerId, now, ttl) => LeaseSame(t, repo, id, workerId, now, ttl);
    case Renew(id, workerId, fence, now, ttl) => RenewalSame(t, repo, id, workerId, fence, now, ttl);
    case Append(id, workerId, fence, event, payload, now) => AppendSame(t, repo, id, workerId, fence, event, payload, now);
    case Save(workerId, checkpoint) => SaveSame(t, repo, workerId, checkpoint);
    case Finish(id, workerId, fence, result, event, now) => FinishSame(t, repo, id, workerId, fence, result, event, now);
  }

  lemma CallEnabled(t: P.Tables, repo: Repo, call: Call)
    requires Matches(t, repo) && P.Enabled(t, call)
    ensures Enabled(repo, call)
  {
    if call.LeaseNext? {
      SameQueue(t, repo, call.runId, call.now);
    }
  }

  lemma StorableMatches(t: P.Tables, repo: Repo, call: Call)
    requires Matches(t, repo) && Indexed(repo) && P.Enabled(t, call) && P.StorableCall(call)
    ensures Enabled(repo, call)
    ensures Matches(P.After(t, call), After(repo, call))
    ensures P.Succeeds(t, call) <==> Succeeds(repo, call)
  {
    CallEnabled(t, repo, call);
    if call.Create? {
      SamePair(t, repo, call.request.tenantId, call.request.idempotencyKey);
      RunAgrees(t, repo, call.request.runId);
      CreationAgrees(t, repo, call.request, call.now);
      CreationMatches(t, repo, call.request, call.now);
    } else {
      RunAgrees(t, repo, Target(call));
      CallSame(t, repo, call);
      StepMatches(t, repo, Target(call), P.After(t, call), After(repo, call));
    }
  }

  /**
    Each transaction commits exactly when the store's operation succeeds and the columns take all text of the
    call. It does to the tables what that operation does to the value they represent, or else nothing.
   */
  lemma CallMatches(t: P.Tables, repo: Repo, call: Call)
    requires Matches(t, repo) && Indexed(repo) && P.Enabled(t, call)
    ensures Enabled(repo, call)
    ensures P.Succeeds(t, call) <==> P.StorableCall(call) && Succeeds(repo, call)
    ensures Matches(P.After(t, call), if P.StorableCall(call) then After(repo, call) else repo)
    ensures !P.StorableCall(call) ==> P.After(t, call) == t
  {
    CallEnabled(t, repo, call);
    if P.StorableCall(call) {
      StorableMatches(t, repo, call);
    } else {
      UnstorableRefused(t, call);
    }
  }

  // A call that only one of the two takes

  const REQUEST := RunRequest("run", "tenant", "key", "input", Live, ZERO_TIME, Manifest("release", "checksum", "", "", [], "", "", ""))
  const CREATION := Call.Create(REQUEST, 1)
  const LEASING := Call.LeaseNext("run", "worker", 1, 1)
  const DELTA := Call.Append("run", "worker", 1, ModelDelta, DeltaPayload(1, "\0"), 1)

  lemma LeasedStore()
    ensures Enabled(EMPTY_REPO, CREATION) && Enabled(After(EMPTY_REPO, CREATION), LEASING)
    ensures var repo := After(After(EMPTY_REPO, CREATION), LEASING);
            Enabled(repo, DELTA) && Succeeds(repo, DELTA)
  {
  }

  lemma LeasedTables()
    ensures P.Enabled(P.EMPTY_TABLES, CREATION) && P.Enabled(P.After(P.EMPTY_TABLES, CREATION), LEASING)
    ensures P.Succeeds(P.EMPTY_TABLES, CREATION) && P.Succeeds(P.After(P.EMPTY_TABLES, CREATION), LEASING)
  {
    assert P.EMPTY_TABLES.runs["run" := P.NewRows(REQUEST, 1)].Keys == {"run"};
  }

  /** A model's text with a NUL character: the in-memory store logs it, and in the database the transaction fails. */
  lemma NulDeltaDiffers()
    ensures P.Enabled(P.EMPTY_TABLES, CREATION) && P.Enabled(P.After(P.EMPTY_TABLES, CREATION), LEASING)
    ensures Enabled(EMPTY_REPO, CREATION) && Enabled(After(EMPTY_REPO, CREATION), LEASING)
    ensures var t, repo := P.After(P.After(P.EMPTY_TABLES, CREATION), LEASING), After(After(EMPTY_REPO, CREATION), LEASING);
            P.Enabled(t, DELTA) && Enabled(repo, DELTA) && Succeeds(repo, DELTA) && !P.Succeeds(t, DELTA)
  {
    LeasedStore();
    LeasedTables();
    assert "\0"[0] == '\0';
    UnstorableRefused(P.After(P.After(P.EMPTY_TABLES, CREATION), LEASING), DELTA);
  }
}
