/** Each transaction keeps the tables in order and does to their rows what the store does to its entries. */
module PostgresRefinement {
  import opened Domain
  import opened Store
  import P = Postgres

  // The rows of one run

  ghost predicate EventsOk(id: string, g: P.RunRows) {
    && (forall s :: s in g.events <==> 1 <= s <= g.row.lastEventSeq)
    && (forall s :: s in g.events ==> g.events[s].sequence == s && g.events[s].runId == id)
  }

  predicate Running(a: P.AttemptRow, row: P.RunRow) {
    a.status == P.AttemptRunning && a.finishedAt == None && a.error == None && row.leaseOwner == Some(a.workerId)
  }

  /** An attempt whose lease ran out before its worker was done. */
  predicate Superseded(a: P.AttemptRow) {
    a.status == P.LeaseExpired && a.finishedAt.Some? && a.error == Some("lease expired")
  }

  /** The attempt that finished a run stands for the run's result. */
  predicate ClosedWith(a: P.AttemptRow, result: FinalResult, at: Time) {
    && (a.status == P.AttemptSucceeded <==> result.status == Succeeded)
    && (a.status == P.AttemptCancelled <==> result.status == Cancelled)
    && (a.status == P.AttemptFailed <==> result.status != Succeeded && result.status != Cancelled)
    && a.finishedAt == Some(at)
    && (if result.error == "" then a.error == None else a.error == Some(result.error))
  }

  /**
    The attempts are exactly 1 to `attempt`, each under the fence of its own number. All but the newest lost their
    lease; the newest is running and owned if the run is running, and stands for the result once there is one.
   */
  ghost predicate AttemptsOk(g: P.RunRows) {
    && (forall n :: n in g.attempts <==> 1 <= n <= g.row.attempt)
    && (forall n :: n in g.fences <==> 1 <= n <= g.row.attempt)
    && (forall n :: n in g.attempts ==>
          && g.attempts[n].attempt == n && g.attempts[n].fence == n
          && (n < g.row.attempt ==> Superseded(g.attempts[n])))
    && NewestOk(g)
  }

  /** A run that never was leased has no attempt, and one that was is running or finished. */
  ghost predicate NewestOk(g: P.RunRows) {
    var n := g.row.attempt;
    match g.row.status
    case Queued => n == 0
    case Running => n in g.attempts && Running(g.attempts[n], g.row)
    case _ =>
      && IsTerminal(g.row.status)
      && n in g.attempts && g.row.finalResult.Some? && g.row.finalResult.value.status == g.row.status
      && ClosedWith(g.attempts[n], g.row.finalResult.value, g.row.updatedAt)
  }

  ghost predicate RowOk(id: string, row: P.RunRow) {
    && row.id == id
    && row.nextAttemptAt.None?
    && row.deadlineAt != Some(ZERO_TIME)
    && row.fence == row.attempt
    && (row.status.Running? ==> 1 <= row.attempt && row.leaseOwner.Some? && row.leaseOwner.value != "" && row.leaseUntil.Some?)
    && (!row.status.Running? ==> row.leaseOwner.None?)
  }

  ghost predicate RowsOk(id: string, g: P.RunRows) {
    RowOk(id, g.row) && AttemptsOk(g) && EventsOk(id, g)
  }

  function LogOf(id: string, g: P.RunRows): seq<RunEvent>
    requires EventsOk(id, g)
  {
    seq(g.row.lastEventSeq, i requires 0 <= i < g.row.lastEventSeq => g.events[i + 1])
  }

  /** The entry that the rows of a run represent. */
  function EntryOf(id: string, g: P.RunRows): Entry
    requires EventsOk(id, g)
  {
    Entry(P.RecordOf(g.row), LogOf(id, g), g.checkpoint)
  }

  lemma HoldingAgrees(id: string, row: P.RunRow, workerId: string, fence: nat, now: Time)
    requires RowOk(id, row)
    ensures P.HoldsRow(row, workerId, fence, now) <==> Holds(P.RecordOf(row), workerId, fence, now)
  {
  }

  lemma LeasingAgrees(id: string, row: P.RunRow, now: Time)
    requires RowOk(id, row)
    ensures P.LeasableRow(row, now) <==> Leasable(P.RecordOf(row), now)
  {
  }

  lemma OrderAgrees(id: string, a: P.RunRow, other: string, b: P.RunRow)
    requires RowOk(id, a) && RowOk(other, b)
    ensures P.RowBefore(a, b) <==> Before(P.RecordOf(a), P.RecordOf(b))
  {
  }

  /** The unique indexes never refuse a new attempt. */
  lemma LeaseAttempts(g: P.RunRows, workerId: string, now: Time, ttl: int)
    requires AttemptsOk(g) && g.row.fence == g.row.attempt && (g.row.status.Queued? || g.row.status.Running?)
    ensures P.LeaseRows(g, workerId, now, ttl).Some?
    ensures AttemptsOk(P.LeaseRows(g, workerId, now, ttl).value)
  {
  }

  lemma LeaseRowsOk(id: string, g: P.RunRows, workerId: string, now: Time, ttl: int)
    requires RowsOk(id, g) && workerId != "" && P.LeasableRow(g.row, now)
    ensures P.LeaseRows(g, workerId, now, ttl).Some?
    ensures var g' := P.LeaseRows(g, workerId, now, ttl).value;
            RowsOk(id, g') && EntryOf(id, g') == Leased(EntryOf(id, g), workerId, now, ttl)
  {
    LeaseAttempts(g, workerId, now, ttl);
  }

  /** A lease closes the attempt that lost the run, if there is one, and opens the next under the new fence. */
  lemma AttemptOpened(id: string, g: P.RunRows, workerId: string, now: Time, ttl: int)
    requires RowsOk(id, g) && P.LeasableRow(g.row, now)
    ensures P.LeaseRows(g, workerId, now, ttl).Some?
    ensures var g', n := P.LeaseRows(g, workerId, now, ttl).value, g.row.attempt;
            && g'.row.attempt == n + 1 && g'.row.fence == n + 1
            && g'.attempts.Keys == g.attempts.Keys + {n + 1}
            && g'.attempts[n + 1] == P.AttemptRow(n + 1, workerId, n + 1, P.AttemptRunning, now, None, None)
            && (n > 0 ==>
                  && n in g.attempts
                  && g'.attempts[n] == P.AttemptRow(n, g.attempts[n].workerId, n, P.LeaseExpired,
                                                    g.attempts[n].startedAt, Some(now), Some("lease expired")))
            && (forall m :: 1 <= m < n ==> m in g.attempts && g'.attempts[m] == g.attempts[m])
  {
    LeaseAttempts(g, workerId, now, ttl);
  }

  lemma RenewRowsOk(id: string, g: P.RunRows, now: Time, ttl: int)
    requires RowsOk(id, g) && g.row.status.Running?
    ensures var g' := g.(row := P.RenewedRow(g.row, now, ttl));
            RowsOk(id, g') && EntryOf(id, g') == Renewed(EntryOf(id, g), now, ttl)
  {
  }

  /** The primary key never refuses the next event. */
  lemma NextEventFits(id: string, g: P.RunRows, row: P.RunRow, event: RunEvent)
    requires EventsOk(id, g) && row.lastEventSeq == g.row.lastEventSeq + 1
    requires event.sequence == row.lastEventSeq && event.runId == id
    ensures P.AddEvent(g.(row := row), event).Some?
    ensures var g' := P.AddEvent(g.(row := row), event).value;
            EventsOk(id, g') && LogOf(id, g') == LogOf(id, g) + [event]
  {
  }

  lemma AppendRowsOk(id: string, g: P.RunRows, event: EventType, payload: Payload, now: Time)
    requires RowsOk(id, g) && g.row.status.Running?
    ensures P.AppendRows(g, event, payload, now).Some?
    ensures var g' := P.AppendRows(g, event, payload, now).value;
            RowsOk(id, g') && EntryOf(id, g') == Appended(EntryOf(id, g), event, payload, now)
    ensures P.AdvancedEvent(g, event, payload, now) == NextEvent(P.RecordOf(g.row), event, payload, now)
  {
    var row := g.row.(lastEventSeq := g.row.lastEventSeq + 1, updatedAt := now);
    NextEventFits(id, g, row, P.AdvancedEvent(g, event, payload, now));
  }

  /** Finishing closes the newest attempt, which is the running one. */
  lemma FinishAttempts(g: P.RunRows, result: FinalResult, now: Time)
    requires AttemptsOk(g) && g.row.status.Running? && IsTerminal(result.status)
    ensures var row := P.FinishedRow(g.row, result, now);
            AttemptsOk(g.(row := row, attempts := P.ClosedAttempts(g.attempts, g.row.attempt, result, now)))
  {
  }

  /** The attempt that a finish closes ends now, with the status and the error of the result; no other attempt changes. */
  lemma AttemptClosed(id: string, g: P.RunRows, result: FinalResult, event: EventType, now: Time)
    requires RowsOk(id, g) && g.row.status.Running? && IsTerminal(result.status)
    ensures P.FinishRows(g, result, event, now).Some?
    ensures var g', n := P.FinishRows(g, result, event, now).value, g.row.attempt;
            && g'.row.attempt == n && n in g.attempts && n in g'.attempts
            && g'.attempts == g.attempts[n := g'.attempts[n]]
            && ClosedWith(g'.attempts[n], result, now)
            && g'.attempts[n].workerId == g.attempts[n].workerId
            && g'.attempts[n].startedAt == g.attempts[n].startedAt
  {
    FinishRowsOk(id, g, result, event, now);
  }

  lemma FinishRowsOk(id: string, g: P.RunRows, result: FinalResult, event: EventType, now: Time)
    requires RowsOk(id, g) && g.row.status.Running? && IsTerminal(result.status)
    ensures P.FinishRows(g, result, event, now).Some?
    ensures var g' := P.FinishRows(g, result, event, now).value;
            RowsOk(id, g') && EntryOf(id, g') == Finished(EntryOf(id, g), result, event, now)
    ensures P.AdvancedEvent(g, event, ResultPayload(result), now) == NextEvent(P.RecordOf(g.row), event, ResultPayload(result), now)
  {
    var row := P.FinishedRow(g.row, result, now);
    var attempts := P.ClosedAttempts(g.attempts, g.row.attempt, result, now);
    FinishAttempts(g, result, now);
    NextEventFits(id, g.(attempts := attempts), row, P.AdvancedEvent(g, event, ResultPayload(result), now));
    assert g.(row := row, attempts := attempts) == g.(attempts := attempts).(row := row);
  }

  lemma NewRowsOk(request: RunRequest, now: Time)
    ensures RowsOk(request.runId, P.NewRows(request, now))
    ensures EntryOf(request.runId, P.NewRows(request, now)) == NewEntry(request, now)
  {
  }

  // All runs

  ghost predicate RunsOk(runs: map<string, P.RunRows>) {
    forall id :: id in runs ==> RowsOk(id, runs[id])
  }

  ghost predicate PairsOk(t: P.Tables) {
    && (forall p :: p in t.pairs ==>
          && t.pairs[p] in t.runs
          && (t.runs[t.pairs[p]].row.tenantId, t.runs[t.pairs[p]].row.idempotencyKey) == p
          && P.NulFree(p.0) && P.NulFree(p.1))
    && (forall id :: id in t.runs ==>
          && (t.runs[id].row.tenantId, t.runs[id].row.idempotencyKey) in t.pairs
          && t.pairs[(t.runs[id].row.tenantId, t.runs[id].row.idempotencyKey)] == id)
  }

  ghost predicate RunsMatch(runs: map<string, P.RunRows>, entries: map<string, Entry>)
    requires RunsOk(runs)
  {
    runs.Keys == entries.Keys && forall id :: id in runs ==> entries[id] == EntryOf(id, runs[id])
  }

  ghost predicate KeysMatch(pairs: map<(string, string), string>, keys: map<string, string>) {
    forall p :: p in pairs ==> JoinedKey(p.0, p.1) in keys && keys[JoinedKey(p.0, p.1)] == pairs[p]
  }

  /** The tables represent the store value. */
  ghost predicate Matches(t: P.Tables, repo: Repo) {
    RunsOk(t.runs) && PairsOk(t) && RunsMatch(t.runs, repo.runs) && KeysMatch(t.pairs, repo.byIdempotency)
  }

  /** Without NUL characters in them, joined keys keep tenant and key apart. */
  lemma JoinedKeyInjective(a: string, b: string, c: string, d: string)
    requires P.NulFree(a) && P.NulFree(c) && JoinedKey(a, b) == JoinedKey(c, d)
    ensures a == c && b == d
  {
    var joined := JoinedKey(a, b);
    assert joined[|a|] == '\0' && joined[|c|] == '\0';
    assert forall i :: 0 <= i < |a| ==> joined[i] == a[i];
    assert forall i :: 0 <= i < |c| ==> joined[i] == c[i];
    assert joined[..|a|] == a && joined[..|c|] == c;
    assert joined[|a| + 1..] == b && joined[|c| + 1..] == d;
  }

  lemma CommitKeepsPairs(t: P.Tables, id: string, g: P.RunRows)
    requires PairsOk(t) && id in t.runs
    requires g.row.tenantId == t.runs[id].row.tenantId && g.row.idempotencyKey == t.runs[id].row.idempotencyKey
    ensures PairsOk(t.(runs := t.runs[id := g]))
  {
  }

  lemma CommitKeepsRuns(runs: map<string, P.RunRows>, entries: map<string, Entry>, id: string, g: P.RunRows)
    requires RunsOk(runs) && RunsMatch(runs, entries) && RowsOk(id, g)
    ensures RunsOk(runs[id := g]) && RunsMatch(runs[id := g], entries[id := EntryOf(id, g)])
  {
  }

  lemma CommitMatches(t: P.Tables, repo: Repo, id: string, g: P.RunRows, event: Option<RunEvent>)
    requires Matches(t, repo) && id in t.runs && RowsOk(id, g)
    requires g.row.tenantId == t.runs[id].row.tenantId && g.row.idempotencyKey == t.runs[id].row.idempotencyKey
    ensures Matches(P.Commit(t, id, g, event), repo.(runs := repo.runs[id := EntryOf(id, g)]))
  {
    CommitKeepsPairs(t, id, g);
    CommitKeepsRuns(t.runs, repo.runs, id, g);
  }
}
