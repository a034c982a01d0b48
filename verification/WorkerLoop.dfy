/**
  The worker's loop over one lease: it takes the engine's outputs one after the other and persists them in
  the repository, and what it does with each is what the moves of the system's attempts do.
 */
module WorkerLoop {
  import opened Domain
  import opened EngineState
  import opened Engine
  import opened Store
  import opened MemoryRepository
  import opened Workers

  datatype Config = Config(workerId: string, leaseTTL: int, renewEvery: int, pollInterval: int)

  predicate ValidConfig(config: Config) {
    config.workerId != "" && 0 < config.renewEvery < config.leaseTTL && 0 < config.pollInterval
  }

  /** How the loop ends. */
  datatype WorkerEnd = RunFinished | StoreFailed(error: StoreError) | InvalidTerminal | MissingTerminal | ContextEnded

  /** What the loop's select sees: a renewal beside it, the context's end, or the next output. */
  datatype Signal = Renewal(now: Time) | ContextDone | Receive(now: Time, savedAt: Time)

  /** What is done with one output. */
  function Deliver(repo: Repo, lease: Lease, out: Output, now: Time, savedAt: Time): (Repo, Option<WorkerEnd>) {
    var id, owner, fence := lease.run.id, lease.workerId, lease.fence;
    if out.event == RunCreated then (repo, None)
    else if TerminalEvent(out.event) then
      if !out.payload.ResultPayload? || !ValidTerminalEvent(out.payload.result, out.event) then (repo, Some(InvalidTerminal))
      else
        var (repo', answer) := Store.FinishRun(repo, id, owner, fence, out.payload.result, out.event, now);
        (repo', Some(if answer.Ok? then RunFinished else StoreFailed(answer.error)))
    else
      var (repo', answer) := Store.AppendEvent(repo, id, owner, fence, out.event, out.payload, now);
      if answer.Err? then (repo', Some(StoreFailed(answer.error)))
      else if out.checkpoint.None? then (repo', None)
      else
        var checkpoint := Checkpoint(id, fence, answer.value.sequence, out.checkpoint.value, savedAt);
        var (repo'', saved) := Store.SaveCheckpoint(repo', owner, checkpoint);
        (repo'', if saved.Ok? then None else Some(StoreFailed(saved.error)))
  }

  /** The loop from the i-th signal and the n-th output on; without an end it still runs. */
  function Persist(repo: Repo, config: Config, lease: Lease, outputs: seq<Output>, signals: seq<Signal>, i: nat, n: nat)
    : (Repo, Option<WorkerEnd>)
    requires i <= |signals| && n <= |outputs|
    decreases |signals| - i
  {
    if i == |signals| then (repo, None)
    else
      match signals[i]
      case ContextDone => (repo, Some(ContextEnded))
      case Renewal(now) =>
        var (repo', answer) := Store.RenewLease(repo, lease.run.id, lease.workerId, lease.fence, now, config.leaseTTL);
        if answer.Err? then (repo', Some(StoreFailed(answer.error)))
        else Persist(repo', config, lease, outputs, signals, i + 1, n)
      case Receive(now, savedAt) =>
        if n == |outputs| then (repo, Some(MissingTerminal))
        else
          var (repo', end) := Deliver(repo, lease, outputs[n], now, savedAt);
          if end.Some? then (repo', end) else Persist(repo', config, lease, outputs, signals, i + 1, n + 1)
  }

  class Worker {
    const repository: Repository
    const config: Config

    constructor (repository: Repository, config: Config)
      requires ValidConfig(config)
      ensures this.repository == repository && this.config == config
    {
      this.repository := repository;
      this.config := config;
    }

    method Finish(lease: Lease, out: Output, now: Time) returns (end: WorkerEnd)
      requires repository.Valid() && TerminalEvent(out.event)
      modifies repository
      ensures repository.Valid()
      ensures (repository.Value(), Some(end)) == Deliver(old(repository.Value()), lease, out, now, now)
    {
      if !out.payload.ResultPayload? || !ValidTerminalEvent(out.payload.result, out.event) {
        return InvalidTerminal;
      }
      var answer := repository.FinishRun(lease.run.id, lease.workerId, lease.fence, out.payload.result, out.event, now);
      return if answer.Ok? then RunFinished else StoreFailed(answer.error);
    }

    method SaveCheckpoint(lease: Lease, state: ExecutionState, sequence: nat, now: Time) returns (answer: Result<(), StoreError>)
      requires repository.Valid()
      modifies repository
      ensures repository.Valid()
      ensures (repository.Value(), answer) ==
              Store.SaveCheckpoint(old(repository.Value()), lease.workerId, Checkpoint(lease.run.id, lease.fence, sequence, state, now))
    {
      answer := repository.SaveCheckpoint(lease.workerId, Checkpoint(lease.run.id, lease.fence, sequence, state, now));
    }

    method LoadCheckpoint(runId: string) returns (state: Option<ExecutionState>)
      requires repository.Valid()
      ensures state == if runId in repository.Value().runs then LoadedState(repository.Value().runs[runId]) else None
    {
      var answer := repository.GetCheckpoint(runId);
      return if answer.Ok? then Some(answer.value.state) else None;
    }

    method DeliverOutput(lease: Lease, out: Output, now: Time, savedAt: Time) returns (end: Option<WorkerEnd>)
      requires repository.Valid()
      modifies repository
      ensures repository.Valid()
      ensures (repository.Value(), end) == Deliver(old(repository.Value()), lease, out, now, savedAt)
    {
      if out.event == RunCreated {
        return None;
      }
      if TerminalEvent(out.event) {
        var finished := Finish(lease, out, now);
        return Some(finished);
      }
      var persisted := repository.AppendEvent(lease.run.id, lease.workerId, lease.fence, out.event, out.payload, now);
      if persisted.Err? {
        return Some(StoreFailed(persisted.error));
      }
      if out.checkpoint.Some? {
        var saved := SaveCheckpoint(lease, out.checkpoint.value, persisted.value.sequence, savedAt);
        if saved.Err? {
          return Some(StoreFailed(saved.error));
        }
      }
      return None;
    }

    /** The loop over the outputs of one engine call, as the signals come. */
    method ExecuteLease(lease: Lease, outputs: seq<Output>, signals: seq<Signal>) returns (end: Option<WorkerEnd>)
      requires repository.Valid()
      modifies repository
      ensures repository.Valid()
      ensures (repository.Value(), end) == Persist(old(repository.Value()), config, lease, outputs, signals, 0, 0)
    {
      var n := 0;
      ghost var whole := Persist(repository.Value(), config, lease, outputs, signals, 0, 0);
      for i := 0 to |signals|
        invariant repository.Valid() && n <= |outputs|
        invariant Persist(repository.Value(), config, lease, outputs, signals, i, n) == whole
      {
        match signals[i] {
          case ContextDone =>
            return Some(ContextEnded);
          case Renewal(now) =>
            var answer := repository.RenewLease(lease.run.id, lease.workerId, lease.fence, now, config.leaseTTL);
            if answer.Err? {
              return Some(StoreFailed(answer.error));
            }
          case Receive(now, savedAt) =>
            if n == |outputs| {
              return Some(MissingTerminal);
            }
            var stopped := DeliverOutput(lease, outputs[n], now, savedAt);
            if stopped.Some? {
              return stopped;
            }
            n := n + 1;
        }
      }
      return None;
    }
  }

  // The loop makes the moves of the system

  /** The moves for one output: take it, and unless it is the creation event write it and save its checkpoint. */
  function Handled(entry: Entry, track: Track, fence: nat, now: Time, savedAt: Time): (Entry, Track)
    requires CanMove(track, Take(fence))
    requires AttemptOf(track, fence).trace[AttemptOf(track, fence).written].Emit?
  {
    var (entry1, track1) := Moved(entry, track, Take(fence));
    if !CanMove(track1, Write(fence, now)) then (entry1, track1)
    else
      var (entry2, track2) := Moved(entry1, track1, Write(fence, now));
      if !CanMove(track2, Move.Save(fence, savedAt)) then (entry2, track2)
      else Moved(entry2, track2, Move.Save(fence, savedAt))
  }

  function OutputOf(action: Action, sequence: nat): Output
    requires action.Emit?
  {
    Output(sequence, action.event, action.payload, action.checkpoint)
  }

  predicate HasOutput(repo: Repo, track: Track, fence: nat) {
    && CanMove(track, Take(fence))
    && var att := AttemptOf(track, fence); att.trace[att.written].Emit? && att.lease.id in repo.runs
  }

  /** The delivery and the moves change the run alike, and the loop goes on exactly when the attempt does. */
  predicate SameDelivery(repo: Repo, track: Track, fence: nat, sequence: nat, now: Time, savedAt: Time)
    requires HasOutput(repo, track, fence)
  {
    var att := AttemptOf(track, fence);
    var lease := Lease(att.lease, att.lease.leaseOwner, fence, att.lease.attempt, att.lease.leaseUntil);
    var (repo', end) := Deliver(repo, lease, OutputOf(att.trace[att.written], sequence), now, savedAt);
    var (entry', track') := Handled(repo.runs[att.lease.id], track, fence, now, savedAt);
    && repo' == repo.(runs := repo.runs[att.lease.id := entry'])
    && (end.None? <==> AttemptOf(track', fence).hand.Idle?)
  }

  lemma SameRuns(runs: map<string, Entry>, id: string, entry: Entry)
    requires id in runs
    ensures runs[id := runs[id]] == runs
    ensures runs[id := entry][id] == entry
  {
  }

  lemma CreationSkipped(repo: Repo, track: Track, fence: nat, sequence: nat, now: Time, savedAt: Time)
    requires HasOutput(repo, track, fence)
    requires AttemptOf(track, fence).trace[AttemptOf(track, fence).written].event == RunCreated
    ensures SameDelivery(repo, track, fence, sequence, now, savedAt)
  {
    var id := AttemptOf(track, fence).lease.id;
    SameRuns(repo.runs, id, repo.runs[id]);
  }

  lemma TerminalFinished(repo: Repo, track: Track, fence: nat, sequence: nat, now: Time, savedAt: Time)
    requires HasOutput(repo, track, fence)
    requires TerminalEvent(AttemptOf(track, fence).trace[AttemptOf(track, fence).written].event)
    ensures SameDelivery(repo, track, fence, sequence, now, savedAt)
  {
    var id := AttemptOf(track, fence).lease.id;
    SameRuns(repo.runs, id, repo.runs[id]);
  }

  lemma OtherAppended(repo: Repo, track: Track, fence: nat, sequence: nat, now: Time, savedAt: Time)
    requires HasOutput(repo, track, fence)
    requires var event := AttemptOf(track, fence).trace[AttemptOf(track, fence).written].event;
             event != RunCreated && !TerminalEvent(event)
    ensures SameDelivery(repo, track, fence, sequence, now, savedAt)
  {
    var att := AttemptOf(track, fence);
    var action := att.trace[att.written];
    SameRuns(repo.runs, att.lease.id, repo.runs[att.lease.id]);
    SameRuns(repo.runs, att.lease.id, Appended(repo.runs[att.lease.id], action.event, action.payload, now));
  }

  /** What the loop does with an output is what the moves of the system's attempts do with it. */
  lemma DeliveryIsMoves(repo: Repo, track: Track, fence: nat, sequence: nat, now: Time, savedAt: Time)
    requires HasOutput(repo, track, fence)
    ensures SameDelivery(repo, track, fence, sequence, now, savedAt)
  {
    var event := AttemptOf(track, fence).trace[AttemptOf(track, fence).written].event;
    if event == RunCreated {
      CreationSkipped(repo, track, fence, sequence, now, savedAt);
    } else if TerminalEvent(event) {
      TerminalFinished(repo, track, fence, sequence, now, savedAt);
    } else {
      OtherAppended(repo, track, fence, sequence, now, savedAt);
    }
  }

  lemma WriteMovesOn(entry: Entry, track: Track, fence: nat, now: Time)
    requires CanMove(track, Write(fence, now))
    ensures var att := AttemptOf(Moved(entry, track, Write(fence, now)).1, fence);
            att.hand.Gone? || att.written == AttemptOf(track, fence).written + 1
  {
  }

  lemma SaveStays(entry: Entry, track: Track, fence: nat, now: Time)
    requires CanMove(track, Move.Save(fence, now))
    ensures AttemptOf(Moved(entry, track, Move.Save(fence, now)).1, fence).written == AttemptOf(track, fence).written
  {
  }

  /** The attempt that goes on is behind the output, so each output is dealt with once. */
  lemma OutputDone(entry: Entry, track: Track, fence: nat, now: Time, savedAt: Time)
    requires CanMove(track, Take(fence)) && AttemptOf(track, fence).trace[AttemptOf(track, fence).written].Emit?
    ensures var track' := Handled(entry, track, fence, now, savedAt).1;
            AttemptOf(track', fence).hand.Idle? ==> AttemptOf(track', fence).written == AttemptOf(track, fence).written + 1
  {
    var (entry1, track1) := Moved(entry, track, Take(fence));
    if CanMove(track1, Write(fence, now)) {
      WriteMovesOn(entry1, track1, fence, now);
      var (entry2, track2) := Moved(entry1, track1, Write(fence, now));
      if CanMove(track2, Move.Save(fence, savedAt)) {
        SaveStays(entry2, track2, fence, savedAt);
      }
    }
  }

  /** While the lease is held an output is never lost: it becomes the next event, and its state the checkpoint. */
  lemma HeldDelivery(repo: Repo, lease: Lease, out: Output, now: Time, savedAt: Time)
    requires lease.run.id in repo.runs && EntryOk(lease.run.id, repo.runs[lease.run.id])
    requires Holds(repo.runs[lease.run.id].record, lease.workerId, lease.fence, now)
    requires Holds(repo.runs[lease.run.id].record, lease.workerId, lease.fence, savedAt)
    requires out.event != RunCreated
    requires TerminalEvent(out.event) ==> out.payload.ResultPayload? && ValidTerminalEvent(out.payload.result, out.event)
    ensures var (repo', end) := Deliver(repo, lease, out, now, savedAt);
            var entry, entry' := repo.runs[lease.run.id], repo'.runs[lease.run.id];
            && entry'.log == entry.log + [RunEvent(lease.run.id, |entry.log| + 1, out.event, now, out.payload)]
            && (TerminalEvent(out.event) ==> end == Some(RunFinished) && IsTerminal(entry'.record.status))
            && (!TerminalEvent(out.event) ==>
                  && end.None?
                  && entry'.checkpoint == if out.checkpoint.None? then entry.checkpoint
                                          else Some(Checkpoint(lease.run.id, lease.fence, |entry.log| + 1, out.checkpoint.value, savedAt)))
  {
    if TerminalEvent(out.event) {
      TerminalTestsAgree(out.payload.result.status, out.event);
    }
  }

  /** The run with its lease moved. */
  function Extended(repo: Repo, id: string, now: Time, ttl: int): Repo
    requires id in repo.runs
  {
    var entry := repo.runs[id];
    repo.(runs := repo.runs[id := entry.(record := entry.record.(leaseUntil := now + ttl, updatedAt := now))])
  }

  lemma RenewalExtends(repo: Repo, id: string, workerId: string, fence: nat, now: Time, ttl: int)
    requires 0 < ttl && id in repo.runs && Holds(repo.runs[id].record, workerId, fence, now)
    ensures Store.RenewLease(repo, id, workerId, fence, now, ttl) == (Extended(repo, id, now, ttl), Ok(now + ttl))
  {
  }

  /** A renewal that comes while the lease is held makes it last its time to live from then on, and the loop goes on. */
  lemma RenewalGoesOn(repo: Repo, config: Config, lease: Lease, outputs: seq<Output>, signals: seq<Signal>, i: nat, n: nat)
    requires 0 < config.leaseTTL && i < |signals| && n <= |outputs| && signals[i].Renewal?
    requires lease.run.id in repo.runs && Holds(repo.runs[lease.run.id].record, lease.workerId, lease.fence, signals[i].now)
    ensures Persist(repo, config, lease, outputs, signals, i, n) ==
            Persist(Extended(repo, lease.run.id, signals[i].now, config.leaseTTL), config, lease, outputs, signals, i + 1, n)
  {
    RenewalExtends(repo, lease.run.id, lease.workerId, lease.fence, signals[i].now, config.leaseTTL);
  }

  /** The loop ends for one of these reasons only: its context, a refused call, a bad terminal output, no output, or the end of the run. */
  lemma {:induction false} LoopEnds(repo: Repo, config: Config, lease: Lease, outputs: seq<Output>, signals: seq<Signal>, i: nat, n: nat)
    requires i <= |signals| && n <= |outputs|
    ensures var end := Persist(repo, config, lease, outputs, signals, i, n).1;
            && (end == Some(ContextEnded) ==> ContextDone in signals[i..])
            && (end == Some(MissingTerminal) ==> forall k :: n <= k < |outputs| ==> !TerminalEvent(outputs[k].event))
            && (end == Some(RunFinished) || end == Some(InvalidTerminal) ==>
                  exists k :: n <= k < |outputs| && TerminalEvent(outputs[k].event))
    decreases |signals| - i
  {
    if i < |signals| {
      match signals[i] {
        case ContextDone =>
        case Renewal(now) =>
          var (repo', answer) := Store.RenewLease(repo, lease.run.id, lease.workerId, lease.fence, now, config.leaseTTL);
          if answer.Ok? {
            LoopEnds(repo', config, lease, outputs, signals, i + 1, n);
          }
        case Receive(now, savedAt) =>
          if n < |outputs| {
            var (repo', end) := Deliver(repo, lease, outputs[n], now, savedAt);
            if end.None? {
              LoopEnds(repo', config, lease, outputs, signals, i + 1, n + 1);
            }
          }
      }
    }
  }
}
