/** Every step of the system keeps its invariant, so it holds in every state of every run of it. */
module WorkersSafety {
  import opened Domain
  import opened Engine
  import opened EngineTrace
  import opened Store
  import opened Workers
  import opened WorkersInvariant
  import opened WorkersSteps
  import opened WorkersCheckpoints

  lemma MoveKeepsTrack(limits: Limits, id: string, entry: Entry, track: Track, move: Move)
    requires TrackOk(limits, id, entry, track) && EntryOk(id, entry) && CanMove(track, move)
    ensures TrackOk(limits, id, Moved(entry, track, move).0, Moved(entry, track, move).1)
  {
    match move
    case Produce(_) => BookMoveKeepsTrack(limits, id, entry, track, move);
    case StopEngine(_) => BookMoveKeepsTrack(limits, id, entry, track, move);
    case Take(_) => BookMoveKeepsTrack(limits, id, entry, track, move);
    case Write(fence, now) => WriteKeepsTrack(limits, id, entry, track, fence, now);
    case Save(fence, now) => SaveKeepsTrack(limits, id, entry, track, fence, now);
    case Heartbeat(fence, now, ttl) => HeartbeatKeepsTrack(limits, id, entry, track, fence, now, ttl);
    case Leave(fence) => LeavingKeepsTrack(limits, id, entry, track, fence);
  }

  lemma NewTrackOk(limits: Limits, request: RunRequest, now: Time)
    ensures TrackOk(limits, request.runId, NewEntry(request, now), NEW_TRACK)
  {
  }

  // Steps keep every track

  lemma SameValue(runs: map<string, Entry>, id: string)
    requires id in runs
    ensures runs[id := runs[id]] == runs
  {
  }

  lemma OneTrackChanges(limits: Limits, s: System, s': System, id: string, entry: Entry, track: Track)
    requires TracksOk(limits, s) && TrackOk(limits, id, entry, track)
    requires s'.repo.runs == s.repo.runs[id := entry] && s'.tracks == s.tracks[id := track]
    ensures TracksOk(limits, s')
  {
  }

  lemma CreationEffect(repo: Repo, request: RunRequest, now: Time)
    ensures var repo' := CreateRun(repo, request, now).0;
            repo' != repo ==> repo'.runs == repo.runs[request.runId := NewEntry(request, now)]
  {
  }

  lemma CreationKeepsTracks(limits: Limits, s: System, s': System, request: RunRequest, now: Time)
    requires TracksOk(limits, s) && Creates(s, s', request, now)
    ensures TracksOk(limits, s')
  {
    CreationEffect(s.repo, request, now);
    if s'.repo != s.repo {
      NewTrackOk(limits, request, now);
      OneTrackChanges(limits, s, s', request.runId, NewEntry(request, now), NEW_TRACK);
    }
  }

  lemma LeaseKeepsTracks(limits: Limits, s: System, s': System, id: string, workerId: string, now: Time, ttl: int)
    requires TracksOk(limits, s) && Leases(s, s', id, workerId, now, ttl) && EntryOk(id, s.repo.runs[id])
    ensures TracksOk(limits, s')
  {
    var entry' := Leased(s.repo.runs[id], workerId, now, ttl);
    LeaseKeepsTrack(limits, id, s.repo.runs[id], s.tracks[id], workerId, now, ttl);
    OneTrackChanges(limits, s, s', id, entry', LeasedTrack(s.tracks[id], entry'.record));
  }

  /** A resumed engine call starts from a faithful checkpoint. */
  lemma ResumedOk(limits: Limits, id: string, entry: Entry, track: Track, fence: nat, env: Env)
    requires TrackOk(limits, id, entry, track) && 1 <= fence <= |track.attempts| && env.limits == limits
    ensures RequestFrom(AttemptOf(track, fence).lease) == RequestFrom(entry.record)
    ensures FromEngine(RequestFrom(entry.record), limits, LoadedState(entry),
                       Execute(env, RequestFrom(entry.record), LoadedState(entry)))
  {
    AttemptsApply(limits, id, entry, track, fence);
    LoadedFaithful(limits, id, entry, track);
    ExecuteFromEngine(env, RequestFrom(entry.record), LoadedState(entry));
  }

  lemma StartKeepsTracks(limits: Limits, s: System, s': System, id: string, fence: nat, trace: seq<Action>)
    requires TracksOk(limits, s) && Starts(s, s', id, fence, trace)
    requires FromEngine(RequestFrom(s.repo.runs[id].record), limits, LoadedState(s.repo.runs[id]), trace)
    ensures TracksOk(limits, s')
  {
    var entry, track := s.repo.runs[id], s.tracks[id];
    LoadKeepsTrack(limits, id, entry, track, fence, trace);
    SameValue(s.repo.runs, id);
    OneTrackChanges(limits, s, s', id, entry, LoadedTrack(entry, track, fence, trace));
  }

  lemma LoadKeepsTracks(limits: Limits, s: System, s': System, id: string, fence: nat, env: Env)
    requires TracksOk(limits, s) && Loads(s, s', id, fence, env) && env.limits == limits
    ensures TracksOk(limits, s')
  {
    var entry := s.repo.runs[id];
    ResumedOk(limits, id, entry, s.tracks[id], fence, env);
    StartKeepsTracks(limits, s, s', id, fence, Execute(env, RequestFrom(entry.record), LoadedState(entry)));
  }

  lemma MoveKeepsTracks(limits: Limits, s: System, s': System, id: string, move: Move)
    requires TracksOk(limits, s) && Moves(s, s', id, move) && EntryOk(id, s.repo.runs[id])
    ensures TracksOk(limits, s')
  {
    var entry, track := s.repo.runs[id], s.tracks[id];
    MoveKeepsTrack(limits, id, entry, track, move);
    OneTrackChanges(limits, s, s', id, Moved(entry, track, move).0, Moved(entry, track, move).1);
  }

  // Steps keep the store valid

  lemma MoveKeepsStore(limits: Limits, s: System, s': System, id: string, move: Move)
    requires Store.Valid(s.repo) && Moves(s, s', id, move) && AttemptOf(s.tracks[id], move.fence).lease.id == id
    ensures Store.Valid(s'.repo)
  {
    MoveIsCall(s.repo, s.tracks[id], move);
    if CallOf(s.tracks[id], move).Some? {
      CallKeepsValid(s.repo, CallOf(s.tracks[id], move).value);
    }
  }

  lemma StepKeepsStore(limits: Limits, s: System, s': System, step: Label)
    requires Store.Valid(s.repo) && Next(limits, s, s', step)
    requires step.Moving? ==> AttemptOf(s.tracks[step.id], step.move.fence).lease.id == step.id
    ensures Store.Valid(s'.repo)
  {
    match step
    case Creating(request, now) => CreateKeepsValid(s.repo, request, now);
    case Leasing(id, workerId, now, ttl) => CallKeepsValid(s.repo, Call.LeaseNext(id, workerId, now, ttl));
    case Loading(id, fence, env) =>
    case Moving(id, move) => MoveKeepsStore(limits, s, s', id, move);
  }

  lemma StepKeepsTracks(limits: Limits, s: System, s': System, step: Label)
    requires TracksOk(limits, s) && Next(limits, s, s', step)
    requires forall id :: id in s.repo.runs ==> EntryOk(id, s.repo.runs[id])
    ensures TracksOk(limits, s')
  {
    match step
    case Creating(request, now) => CreationKeepsTracks(limits, s, s', request, now);
    case Leasing(id, workerId, now, ttl) => LeaseKeepsTracks(limits, s, s', id, workerId, now, ttl);
    case Loading(id, fence, env) => LoadKeepsTracks(limits, s, s', id, fence, env);
    case Moving(id, move) => MoveKeepsTracks(limits, s, s', id, move);
  }

  lemma StepKeepsSystem(limits: Limits, s: System, s': System, step: Label)
    requires SystemOk(limits, s) && Next(limits, s, s', step)
    ensures SystemOk(limits, s')
  {
    if step.Moving? {
      AttemptsApply(limits, step.id, s.repo.runs[step.id], s.tracks[step.id], step.move.fence);
    }
    StepKeepsStore(limits, s, s', step);
    StepKeepsTracks(limits, s, s', step);
  }

  /** The invariant holds throughout every run of the system. */
  lemma {:induction false} AlwaysOk(limits: Limits, states: seq<System>, labels: seq<Label>, k: nat)
    requires Behaves(limits, states, labels) && k < |states|
    ensures SystemOk(limits, states[k])
  {
    if k > 0 {
      AlwaysOk(limits, states, labels, k - 1);
      assert Next(limits, states[k - 1], states[k - 1 + 1], labels[k - 1]);
      StepKeepsSystem(limits, states[k - 1], states[k], labels[k - 1]);
    }
  }
}
