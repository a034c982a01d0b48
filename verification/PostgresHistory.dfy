/**
  Transactions of any callers interleaved with the publishers' statements: the tables always represent a
  store that some history of calls leads to, and the outbox always announces exactly the logs.
 */
module PostgresHistory {
  import opened Domain
  import opened Store
  import opened PostgresRefinement
  import opened PostgresSimulation
  import P = Postgres
  import H = StoreHistory
  import Outbox
  import O = OutboxProtocol

  /** The events announced for a run, oldest first. */
  function Messages(outbox: seq<Outbox.OutboxRow>, id: string): seq<RunEvent> {
    if outbox == [] then []
    else
      var last := outbox[|outbox| - 1];
      Messages(outbox[..|outbox| - 1], id) + if last.aggregateId == id then [last.payload] else []
  }

  lemma MessagesAdd(outbox: seq<Outbox.OutboxRow>, row: Outbox.OutboxRow, id: string)
    ensures Messages(outbox + [row], id) == Messages(outbox, id) + if row.aggregateId == id then [row.payload] else []
  {
    assert (outbox + [row])[..|outbox|] == outbox;
  }

  /** Rows that differ in their leases and dates only announce the same. */
  lemma {:induction false} MessagesKept(before: seq<Outbox.OutboxRow>, after: seq<Outbox.OutboxRow>, id: string)
    requires |before| == |after|
    requires forall i :: 0 <= i < |before| ==> before[i].aggregateId == after[i].aggregateId && before[i].payload == after[i].payload
    ensures Messages(before, id) == Messages(after, id)
  {
    if before != [] {
      MessagesKept(before[..|before| - 1], after[..|after| - 1], id);
    }
  }

  predicate RowFits(row: Outbox.OutboxRow) {
    row.aggregateType == "RUN" && row.eventType == row.payload.event && row.aggregateId == row.payload.runId
  }

  /** One row per event of every log, in the log's order, with the event's type and the event itself. */
  ghost predicate Conserved(t: P.Tables)
    requires RunsOk(t.runs)
  {
    && (forall id :: id in t.runs ==> Messages(t.outbox, id) == LogOf(id, t.runs[id]))
    && (forall id :: id !in t.runs ==> Messages(t.outbox, id) == [])
  }

  ghost predicate RowsFit(t: P.Tables) {
    forall i :: 0 <= i < |t.outbox| ==> RowFits(t.outbox[i]) && t.outbox[i].id < t.nextOutboxId
  }

  datatype State = State(tables: P.Tables, delivered: set<(nat, nat)>)

  const EMPTY := State(P.EMPTY_TABLES, {})

  datatype Step = Transaction(call: Call) | Publishing(op: O.Op)

  function OutboxOf(s: State): O.State {
    O.State(s.tables.outbox, s.delivered)
  }

  ghost predicate Enabled(s: State, step: Step) {
    match step
    case Transaction(call) => P.Enabled(s.tables, call)
    case Publishing(op) => !op.Insert? && O.Enabled(OutboxOf(s), op)
  }

  ghost function After(s: State, step: Step): State
    requires Enabled(s, step)
  {
    match step
    case Transaction(call) => s.(tables := P.After(s.tables, call))
    case Publishing(op) =>
      var outbox := O.After(OutboxOf(s), op);
      State(s.tables.(outbox := outbox.rows), outbox.delivered)
  }

  ghost predicate Leads(s: State, steps: seq<Step>, s': State)
    decreases |steps|
  {
    if steps == [] then s' == s else Enabled(s, steps[0]) && Leads(After(s, steps[0]), steps[1..], s')
  }

  /** The outbox announces the logs. */
  ghost predicate Announced(s: State) {
    RunsOk(s.tables.runs) && Conserved(s.tables) && RowsFit(s.tables) && O.Valid(OutboxOf(s))
  }


  // One transaction

  lemma AnnouncementAdds(t: P.Tables, t': P.Tables, event: RunEvent, id: string)
    requires t'.outbox == t.outbox + [P.AnnouncementOf(event, t.nextOutboxId)]
    ensures Messages(t'.outbox, id) == Messages(t.outbox, id) + if id == event.runId then [event] else []
  {
    MessagesAdd(t.outbox, P.AnnouncementOf(event, t.nextOutboxId), id);
  }

  lemma CommitAnnounces(t: P.Tables, t': P.Tables, id: string, event: Option<RunEvent>, other: string)
    requires id in t.runs && id in t'.runs && EventsOk(id, t.runs[id]) && EventsOk(id, t'.runs[id])
    requires Commits(t, id, t', event)
    requires other in t.runs && EventsOk(other, t.runs[other]) && Messages(t.outbox, other) == LogOf(other, t.runs[other])
    ensures other in t'.runs && EventsOk(other, t'.runs[other]) && Messages(t'.outbox, other) == LogOf(other, t'.runs[other])
  {
    if event.Some? {
      AnnouncementAdds(t, t', event.value, other);
    }
  }

  lemma CommitConserves(t: P.Tables, t': P.Tables, id: string, event: Option<RunEvent>)
    requires RunsOk(t.runs) && RunsOk(t'.runs) && Conserved(t)
    requires id in t.runs && id in t'.runs && Commits(t, id, t', event)
    ensures Conserved(t')
  {
    forall other | other in t'.runs
      ensures Messages(t'.outbox, other) == LogOf(other, t'.runs[other])
    {
      CommitAnnounces(t, t', id, event, other);
    }
    forall other | other !in t'.runs
      ensures Messages(t'.outbox, other) == []
    {
      if event.Some? {
        AnnouncementAdds(t, t', event.value, other);
      }
    }
  }

  lemma CreationConserves(t: P.Tables, t': P.Tables, request: RunRequest, now: Time)
    requires RunsOk(t.runs) && RunsOk(t'.runs) && Conserved(t) && request.runId !in t.runs
    requires t'.runs == t.runs[request.runId := P.NewRows(request, now)]
    requires t'.outbox == t.outbox + [P.AnnouncementOf(CreatedEvent(request, now), t.nextOutboxId)]
    ensures Conserved(t')
  {
    var event := CreatedEvent(request, now);
    forall other | other in t'.runs
      ensures Messages(t'.outbox, other) == LogOf(other, t'.runs[other])
    {
      AnnouncementAdds(t, t', event, other);
      if other == request.runId {
        NewRowsOk(request, now);
      }
    }
    forall other | other !in t'.runs
      ensures Messages(t'.outbox, other) == []
    {
      AnnouncementAdds(t, t', event, other);
    }
  }

  /** A transaction's outbox either stays or gains one fresh announcement. */
  ghost predicate Announces(t: P.Tables, t': P.Tables) {
    || (t'.outbox == t.outbox && t'.nextOutboxId == t.nextOutboxId)
    || (exists event :: t'.outbox == t.outbox + [P.AnnouncementOf(event, t.nextOutboxId)] && t'.nextOutboxId == t.nextOutboxId + 1)
  }

  lemma AnnouncementsFit(s: State, s': State)
    requires RowsFit(s.tables) && O.Valid(OutboxOf(s)) && Announces(s.tables, s'.tables) && s'.delivered == s.delivered
    ensures RowsFit(s'.tables) && O.Valid(OutboxOf(s'))
  {
    if s'.tables.outbox != s.tables.outbox {
      var event :| s'.tables.outbox == s.tables.outbox + [P.AnnouncementOf(event, s.tables.nextOutboxId)];
      var insert := O.Insert(P.AnnouncementOf(event, s.tables.nextOutboxId));
      O.StepKeepsValid(OutboxOf(s), insert);
    }
  }

  lemma UpdateConserves(t: P.Tables, repo: Repo, call: Call)
    requires RunsOk(t.runs) && Conserved(t) && !call.Create? && P.Enabled(t, call) && Store.Enabled(repo, call) && P.StorableCall(call)
    requires SameRun(t, repo, Target(call)) && RunsOk(P.After(t, call).runs)
    ensures Conserved(P.After(t, call)) && Announces(t, P.After(t, call))
  {
    CallSame(t, repo, call);
    var t', id := P.After(t, call), Target(call);
    if t' != t {
      var event :| Commits(t, id, t', event);
      CommitConserves(t, t', id, event);
    }
  }

  lemma CreateConserves(t: P.Tables, repo: Repo, request: RunRequest, now: Time)
    requires RunsOk(t.runs) && Conserved(t) && RunsOk(P.CreateRun(t, request, now).0.runs)
    ensures Conserved(P.CreateRun(t, request, now).0) && Announces(t, P.CreateRun(t, request, now).0)
  {
    var t' := P.CreateRun(t, request, now).0;
    if t' != t {
      CreationConserves(t, t', request, now);
    }
  }

  lemma TransactionAnnounced(s: State, repo: Repo, call: Call)
    requires Announced(s) && P.Enabled(s.tables, call) && Store.Enabled(repo, call) && P.StorableCall(call)
    requires SameRun(s.tables, repo, Target(call)) && RunsOk(P.After(s.tables, call).runs)
    ensures Announced(After(s, Transaction(call)))
  {
    if call.Create? {
      CreateConserves(s.tables, repo, call.request, call.now);
    } else {
      UpdateConserves(s.tables, repo, call);
    }
    AnnouncementsFit(s, After(s, Transaction(call)));
  }

  lemma TransactionMatches(s: State, repo: Repo, call: Call)
    requires Matches(s.tables, repo) && Indexed(repo) && Announced(s) && P.Enabled(s.tables, call)
    requires P.StorableCall(call)
    ensures Store.Enabled(repo, call)
    ensures Matches(P.After(s.tables, call), Store.After(repo, call)) && Announced(After(s, Transaction(call)))
  {
    CallMatches(s.tables, repo, call);
    RunAgrees(s.tables, repo, Target(call));
    TransactionAnnounced(s, repo, call);
  }

  // One statement of a publisher

  lemma PublishingKeepsRows(s: O.State, op: O.Op)
    requires !op.Insert?
    ensures |O.After(s, op).rows| == |s.rows|
    ensures forall i :: 0 <= i < |s.rows| ==>
              && O.After(s, op).rows[i].id == s.rows[i].id
              && O.After(s, op).rows[i].aggregateType == s.rows[i].aggregateType
              && O.After(s, op).rows[i].aggregateId == s.rows[i].aggregateId
              && O.After(s, op).rows[i].eventType == s.rows[i].eventType
              && O.After(s, op).rows[i].payload == s.rows[i].payload
  {
  }

  lemma PublishingAnnounced(s: State, op: O.Op)
    requires Announced(s) && Enabled(s, Publishing(op))
    ensures Announced(After(s, Publishing(op)))
  {
    var s' := After(s, Publishing(op));
    PublishingKeepsRows(OutboxOf(s), op);
    O.StepKeepsValid(OutboxOf(s), op);
    forall id: string {
      MessagesKept(s.tables.outbox, s'.tables.outbox, id);
    }
  }

  lemma MatchesIgnoresOutbox(t: P.Tables, t': P.Tables, repo: Repo)
    requires Matches(t, repo) && t'.runs == t.runs && t'.pairs == t.pairs
    ensures Matches(t', repo)
  {
  }

  // Any history

  /** The call that a step makes on the store, if it makes one that the tables can hold. */
  function CallsOf(step: Step): seq<Call> {
    if step.Transaction? && P.StorableCall(step.call) then [step.call] else []
  }

  function AllCalls(steps: seq<Step>): seq<Call> {
    if steps == [] then [] else CallsOf(steps[0]) + AllCalls(steps[1..])
  }

  lemma StepMatches(s: State, repo: Repo, step: Step)
    requires Matches(s.tables, repo) && Indexed(repo) && Announced(s) && Enabled(s, step)
    ensures Announced(After(s, step))
    ensures CallsOf(step) == [] ==> Matches(After(s, step).tables, repo)
    ensures CallsOf(step) != [] ==>
              Store.Enabled(repo, step.call) && Matches(After(s, step).tables, Store.After(repo, step.call))
  {
    if step.Publishing? {
      PublishingAnnounced(s, step.op);
      MatchesIgnoresOutbox(s.tables, After(s, step).tables, repo);
    } else if CallsOf(step) == [] {
      UnstorableRefused(s.tables, step.call);
    } else {
      TransactionMatches(s, repo, step.call);
    }
  }

  lemma {:induction false} HistoryMatches(s: State, repo: Repo, steps: seq<Step>, s': State) returns (repo': Repo)
    requires Matches(s.tables, repo) && Store.Valid(repo) && Announced(s) && Leads(s, steps, s')
    ensures H.Leads(repo, AllCalls(steps), repo') && Matches(s'.tables, repo') && Announced(s')
    decreases |steps|
  {
    repo' := repo;
    if steps != [] {
      var step := steps[0];
      StepMatches(s, repo, step);
      if CallsOf(step) == [] {
        repo' := HistoryMatches(After(s, step), repo, steps[1..], s');
        assert AllCalls(steps) == AllCalls(steps[1..]);
      } else {
        CallKeepsValid(repo, step.call);
        repo' := HistoryMatches(After(s, step), Store.After(repo, step.call), steps[1..], s');
        assert AllCalls(steps)[0] == step.call && AllCalls(steps)[1..] == AllCalls(steps[1..]);
      }
    }
  }

  /**
    From empty tables, whatever is interleaved: the tables represent the store that the same calls lead to,
    each run's attempts are numbered and fenced in order with the running one newest and owned, and the
    outbox rows of each run are its events, one for one and in order.
   */
  lemma TablesRefineStore(steps: seq<Step>, s: State) returns (repo: Repo)
    requires Leads(EMPTY, steps, s)
    ensures H.Leads(EMPTY_REPO, AllCalls(steps), repo) && Matches(s.tables, repo)
    ensures forall id :: id in s.tables.runs ==> AttemptsOk(s.tables.runs[id]) && RowOk(id, s.tables.runs[id].row)
    ensures forall id :: id in s.tables.runs ==> Messages(s.tables.outbox, id) == LogOf(id, s.tables.runs[id])
    ensures forall i :: 0 <= i < |s.tables.outbox| ==> RowFits(s.tables.outbox[i])
  {
    repo := HistoryMatches(EMPTY, EMPTY_REPO, steps, s);
  }
}
