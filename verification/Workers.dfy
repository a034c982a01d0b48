/**
  Any number of workers on any number of runs. Each lease of a run is one attempt: an engine call
  running ahead into a bounded channel, and a worker that persists what it takes from there. Attempts
  are never forgotten: a crashed or superseded one may go on for as long as it likes.
 */
module Workers {
  import opened Domain
  import opened EngineState
  import opened Engine
  import opened Store

  const CHANNEL_CAPACITY := 32

  /**
    What the worker's loop is doing. `Writing` holds the action at `written`, taken from the channel; a worker
    that is gone may have taken one that it never wrote.
   */
  datatype Hand = Idle | Writing | Saving(state: ExecutionState, sequence: nat) | Gone(held: bool)

  /**
    One attempt. The engine has come to `produced` in its trace and the worker has dealt with the
    actions before `written`; `lease` is the record as it was leased.
   */
  datatype Attempt = Attempt(
    lease: RunRecord,
    started: bool,
    loaded: Option<ExecutionState>,
    trace: seq<Action>,
    produced: nat,
    written: nat,
    hand: Hand,
    engineUp: bool)

  /** A stored checkpoint together with the place in its attempt's trace that it came from. */
  datatype Stored = Stored(checkpoint: Checkpoint, index: nat)

  /** The attempts on a run, the fence behind each event of its log, and all checkpoints it ever had. */
  datatype Track = Track(attempts: seq<Attempt>, writers: seq<nat>, saved: seq<Stored>)

  datatype System = System(repo: Repo, tracks: map<string, Track>)

  const NEW_TRACK := Track([], [0], [])

  function NewAttempt(lease: RunRecord): Attempt {
    Attempt(lease, false, None, [], 0, 0, Idle, true)
  }

  function Waiting(trace: seq<Action>, from: nat, to: nat): nat
    requires from <= to <= |trace|
  {
    if from == to then 0 else Waiting(trace, from, to - 1) + (if trace[to - 1].Emit? then 1 else 0)
  }

  /** The worker has taken the action at `written` out of the channel. */
  predicate Holding(att: Attempt) {
    att.hand.Writing? || att.hand == Gone(true)
  }

  /** The channel holds what was produced and not yet taken. */
  function InChannel(att: Attempt): nat
    requires att.written <= att.produced <= |att.trace|
  {
    if Holding(att) && att.written < att.produced then Waiting(att.trace, att.written + 1, att.produced)
    else Waiting(att.trace, att.written, att.produced)
  }

  // The moves of one attempt, named by its fence

  datatype Move =
    | Produce(fence: nat)
    | StopEngine(fence: nat)
    | Take(fence: nat)
    | Write(fence: nat, now: Time)
    | Save(fence: nat, now: Time)
    | Heartbeat(fence: nat, now: Time, ttl: int)
    | Leave(fence: nat)

  function AttemptOf(track: Track, fence: nat): Attempt
    requires 1 <= fence <= |track.attempts|
  {
    track.attempts[fence - 1]
  }

  function WithAttempt(track: Track, fence: nat, att: Attempt): Track
    requires 1 <= fence <= |track.attempts|
  {
    track.(attempts := track.attempts[fence - 1 := att])
  }

  predicate CanMove(track: Track, move: Move) {
    && 1 <= move.fence <= |track.attempts|
    && var att := AttemptOf(track, move.fence);
    && att.written <= att.produced <= |att.trace|
    && match move
       case Produce(_) =>
         && att.engineUp && att.produced < |att.trace|
         && (att.trace[att.produced].Emit? ==> InChannel(att) < CHANNEL_CAPACITY)
       case StopEngine(_) => true
       case Take(_) => att.hand.Idle? && att.written < att.produced
       case Write(_, _) => att.hand.Writing? && att.written < att.produced && att.trace[att.written].Emit?
       case Save(_, _) => att.hand.Saving? && 0 < att.written
       case Heartbeat(_, _, ttl) => 0 < ttl
       case Leave(_) => true
  }

  function Produced(att: Attempt): Attempt {
    att.(produced := att.produced + 1)
  }

  /** An output that the worker logs: all but the engine's own creation event. */
  predicate Logs(action: Action) {
    action.Emit? && action.event != RunCreated
  }

  /** The worker skips what it does not log. */
  function Taken(att: Attempt): Attempt
    requires att.written < |att.trace|
  {
    if Logs(att.trace[att.written]) then att.(hand := Writing) else att.(written := att.written + 1)
  }

  function Written(att: Attempt, hand: Hand): Attempt {
    att.(written := att.written + 1, hand := hand)
  }

  /** The worker is gone for good, with what it has taken. */
  function Left(att: Attempt): Attempt {
    att.(hand := Gone(Holding(att)))
  }

  function Wrote(entry: Entry, track: Track, fence: nat, now: Time): (Entry, Track)
    requires CanMove(track, Write(fence, now))
  {
    var att := AttemptOf(track, fence);
    var action := att.trace[att.written];
    var left := WithAttempt(track, fence, Left(att));
    if !Holds(entry.record, att.lease.leaseOwner, fence, now) then (entry, left)
    else if TerminalEvent(action.event) then
      if !action.payload.ResultPayload? || !ValidTerminalEvent(action.payload.result, action.event) then (entry, left)
      else
        (Finished(entry, action.payload.result, action.event, now),
         WithAttempt(track, fence, Written(att, Gone(false))).(writers := track.writers + [fence]))
    else
      var entry' := Appended(entry, action.event, action.payload, now);
      var hand := if action.checkpoint.Some? then Saving(action.checkpoint.value, entry'.record.lastEventSeq) else Idle;
      (entry', WithAttempt(track, fence, Written(att, hand)).(writers := track.writers + [fence]))
  }

  function CheckpointIn(att: Attempt, fence: nat, now: Time): Checkpoint
    requires att.hand.Saving?
  {
    Checkpoint(att.lease.id, fence, att.hand.sequence, att.hand.state, now)
  }

  function SavedNow(entry: Entry, track: Track, fence: nat, now: Time): (Entry, Track)
    requires CanMove(track, Move.Save(fence, now))
  {
    var att := AttemptOf(track, fence);
    var checkpoint := CheckpointIn(att, fence, now);
    if !Holds(entry.record, att.lease.leaseOwner, fence, now) || SaveError(entry, checkpoint).Some? then
      (entry, WithAttempt(track, fence, Left(att)))
    else
      (Store.Saved(entry, checkpoint),
       WithAttempt(track, fence, att.(hand := Idle)).(saved := track.saved + [Stored(checkpoint, att.written - 1)]))
  }

  /** Renewal goes on beside the worker's loop, which may leave when it fails but need not notice at once. */
  function HeartbeatNow(entry: Entry, track: Track, fence: nat, now: Time, ttl: int): (Entry, Track)
    requires CanMove(track, Heartbeat(fence, now, ttl))
  {
    var att := AttemptOf(track, fence);
    if Holds(entry.record, att.lease.leaseOwner, fence, now) then (Renewed(entry, now, ttl), track) else (entry, track)
  }

  function Moved(entry: Entry, track: Track, move: Move): (Entry, Track)
    requires CanMove(track, move)
  {
    var att := AttemptOf(track, move.fence);
    match move
    case Produce(fence) => (entry, WithAttempt(track, fence, Produced(att)))
    case StopEngine(fence) => (entry, WithAttempt(track, fence, att.(engineUp := false)))
    case Take(fence) => (entry, WithAttempt(track, fence, Taken(att)))
    case Write(fence, now) => Wrote(entry, track, fence, now)
    case Save(fence, now) => SavedNow(entry, track, fence, now)
    case Heartbeat(fence, now, ttl) => HeartbeatNow(entry, track, fence, now, ttl)
    case Leave(fence) => (entry, WithAttempt(track, fence, Left(att)))
  }

  /** The store call that a move makes, if it makes one. */
  function CallOf(track: Track, move: Move): Option<Call>
    requires CanMove(track, move)
  {
    var att := AttemptOf(track, move.fence);
    var id, owner := att.lease.id, att.lease.leaseOwner;
    match move
    case Write(fence, now) =>
      var action := att.trace[att.written];
      if !TerminalEvent(action.event) then Some(Call.Append(id, owner, fence, action.event, action.payload, now))
      else if action.payload.ResultPayload? then Some(Call.Finish(id, owner, fence, action.payload.result, action.event, now))
      else None
    case Save(fence, now) => Some(Call.Save(owner, CheckpointIn(att, fence, now)))
    case Heartbeat(fence, now, ttl) => Some(Call.Renew(id, owner, fence, now, ttl))
    case _ => None
  }

  /** A move changes the store exactly as its store call does, and otherwise not at all. */
  lemma MoveIsCall(repo: Repo, track: Track, move: Move)
    requires CanMove(track, move) && AttemptOf(track, move.fence).lease.id in repo.runs
    ensures var id := AttemptOf(track, move.fence).lease.id;
            var repo' := repo.(runs := repo.runs[id := Moved(repo.runs[id], track, move).0]);
            match CallOf(track, move)
            case None => repo' == repo
            case Some(call) => Enabled(repo, call) && repo' == After(repo, call)
  {
    var id := AttemptOf(track, move.fence).lease.id;
    assert repo.runs[id := repo.runs[id]] == repo.runs;
  }

  // Steps of the whole system

  ghost predicate Init(s: System) {
    s == System(EMPTY_REPO, map[])
  }

  ghost predicate Creates(s: System, s': System, request: RunRequest, now: Time) {
    && s'.repo == CreateRun(s.repo, request, now).0
    && s'.tracks == if s'.repo == s.repo then s.tracks else s.tracks[request.runId := NEW_TRACK]
  }

  ghost predicate Leases(s: System, s': System, id: string, workerId: string, now: Time, ttl: int) {
    var call := Call.LeaseNext(id, workerId, now, ttl);
    && Enabled(s.repo, call) && id in s.tracks
    && s'.repo == After(s.repo, call)
    && s'.tracks == s.tracks[id := LeasedTrack(s.tracks[id], s'.repo.runs[id].record)]
  }

  function LeasedTrack(track: Track, lease: RunRecord): Track {
    track.(attempts := track.attempts + [NewAttempt(lease)])
  }

  function LoadedState(entry: Entry): Option<ExecutionState> {
    if entry.checkpoint.Some? then Some(entry.checkpoint.value.state) else None
  }

  /** An attempt that has been leased reads the checkpoint, some time later, and starts its engine. */
  function LoadedTrack(entry: Entry, track: Track, fence: nat, trace: seq<Action>): Track
    requires 1 <= fence <= |track.attempts|
  {
    var att := AttemptOf(track, fence);
    WithAttempt(track, fence, att.(started := true, loaded := LoadedState(entry), trace := trace))
  }

  ghost predicate Starts(s: System, s': System, id: string, fence: nat, trace: seq<Action>) {
    && id in s.repo.runs && id in s.tracks
    && 1 <= fence <= |s.tracks[id].attempts|
    && !AttemptOf(s.tracks[id], fence).started && !AttemptOf(s.tracks[id], fence).hand.Gone?
    && s'.repo == s.repo
    && s'.tracks == s.tracks[id := LoadedTrack(s.repo.runs[id], s.tracks[id], fence, trace)]
  }

  ghost predicate Loads(s: System, s': System, id: string, fence: nat, env: Env) {
    && id in s.repo.runs && id in s.tracks
    && 1 <= fence <= |s.tracks[id].attempts|
    && var lease := AttemptOf(s.tracks[id], fence).lease;
    Starts(s, s', id, fence, Execute(env, RequestFrom(lease), LoadedState(s.repo.runs[id])))
  }

  ghost predicate Moves(s: System, s': System, id: string, move: Move) {
    && id in s.repo.runs && id in s.tracks
    && CanMove(s.tracks[id], move)
    && s'.repo == s.repo.(runs := s.repo.runs[id := Moved(s.repo.runs[id], s.tracks[id], move).0])
    && s'.tracks == s.tracks[id := Moved(s.repo.runs[id], s.tracks[id], move).1]
  }

  datatype Label =
    | Creating(request: RunRequest, now: Time)
    | Leasing(id: string, workerId: string, now: Time, ttl: int)
    | Loading(id: string, fence: nat, env: Env)
    | Moving(id: string, move: Move)

  /** One step. Models, tools and contexts differ freely between attempts; the engine's limits do not. */
  ghost predicate Next(limits: Limits, s: System, s': System, step: Label) {
    match step
    case Creating(request, now) => Creates(s, s', request, now)
    case Leasing(id, workerId, now, ttl) => Leases(s, s', id, workerId, now, ttl)
    case Loading(id, fence, env) => env.limits == limits && Loads(s, s', id, fence, env)
    case Moving(id, move) => Moves(s, s', id, move)
  }

  /** A run of the system: states linked by labelled steps from the empty system. */
  ghost predicate Behaves(limits: Limits, states: seq<System>, labels: seq<Label>) {
    && |states| == |labels| + 1
    && Init(states[0])
    && forall k :: 0 <= k < |labels| ==> Next(limits, states[k], states[k + 1], labels[k])
  }
}
