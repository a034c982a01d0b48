/**
  Recovery changes nothing that can be observed but usage totals: with a model and tools that answer alike in
  every attempt, the log of a run, put together by any number of workers that crash and supersede one
  another, holds the outputs of the one call that never crashed, in their order.
 */
module Transparency {
  import opened Domain
  import opened Engine
  import opened EngineInvariants
  import opened Recovery
  import opened UsageReplay
  import opened Restarts
  import opened Pieces
  import opened Store
  import opened Workers
  import opened WorkersInvariant
  import opened WorkersSteps
  import opened WorkersSafety
  import opened Guarantees

  /** All attempts on the run have the same environment. */
  ghost predicate OneEnvironment(labels: seq<Label>, id: string, env: Env) {
    forall k :: 0 <= k < |labels| && labels[k].Loading? && labels[k].id == id ==> labels[k].env == env
  }

  /** The output that the latest stored checkpoint came with. */
  function StoredAction(track: Track): Option<Action> {
    if track.saved == [] then None
    else
      var stored := track.saved[|track.saved| - 1];
      if 1 <= stored.checkpoint.fence <= |track.attempts| && stored.index < |AttemptOf(track, stored.checkpoint.fence).trace|
      then Some(AttemptOf(track, stored.checkpoint.fence).trace[stored.index]) else None
  }

  /** Of the first n steps, those in which an attempt on the run starts do so from harmless checkpoints. */
  ghost predicate HarmlessLoads(states: seq<System>, labels: seq<Label>, id: string, env: Env, n: nat)
    requires n <= |labels| <= |states|
  {
    forall k :: 0 <= k < n && labels[k].Loading? && labels[k].id == id && id in states[k].tracks
                && StoredAction(states[k].tracks[id]).Some?
                ==> Harmless(env, StoredAction(states[k].tracks[id]).value)
  }

  // What every attempt does

  /** The attempt does what a call does after this history of crashes. */
  ghost predicate Follows(env: Env, request: RunRequest, att: Attempt, history: seq<nat>) {
    && Crashes(env, request, history)
    && att.loaded == Resumed(env, request, history)
    && att.trace == CallAfter(env, request, history)
  }

  /** The last crash of the n-th attempt's history left a checkpoint that the g-th attempt had logged. */
  predicate Linked(track: Track, n: nat, history: seq<nat>, g: nat)
    requires n < |track.attempts| && history != []
  {
    && g < |track.attempts| && track.attempts[g].started && g + 1 in track.writers
    && history[|history| - 1] < track.attempts[g].written
    && (n + 1 in track.writers ==> g < n)
  }

  /** An attempt, started, with the history of crashes behind it. */
  ghost predicate Traced(env: Env, request: RunRequest, track: Track, n: nat, history: seq<nat>, g: nat)
    requires n < |track.attempts|
  {
    && Follows(env, request, track.attempts[n], history)
    && (history != [] ==>
          && Linked(track, n, history, g)
          && track.attempts[g].trace == CallAfter(env, request, history[..|history| - 1]))
  }

  // The checkpoint an attempt finds

  lemma LatestIsStored(entry: Entry, track: Track)
    requires |entry.log| == |track.writers| && CheckpointsOk(entry, track) && LoadedState(entry).Some?
    ensures track.saved != []
    ensures var stored := track.saved[|track.saved| - 1];
            StoredOk(entry.log, track, stored) && LoadedState(entry) == Some(stored.checkpoint.state)
  {
  }

  lemma DealtIsStarted(limits: Limits, id: string, entry: Entry, track: Track, f: nat)
    requires TrackOk(limits, id, entry, track) && 1 <= f <= |track.attempts| && 0 < AttemptOf(track, f).written
    ensures AttemptOf(track, f).started && AttemptOf(track, f).written <= |AttemptOf(track, f).trace|
  {
    AttemptsApply(limits, id, entry, track, f);
  }

  /** The stored checkpoint came from an attempt that started and logged, and lies behind its worker. */
  lemma LatestStored(limits: Limits, id: string, entry: Entry, track: Track) returns (g: nat, i: nat)
    requires TrackOk(limits, id, entry, track) && LoadedState(entry).Some?
    ensures g < |track.attempts| && track.attempts[g].started && g + 1 in track.writers
    ensures i < track.attempts[g].written && HasCheckpoint(track.attempts[g].trace, i)
    ensures track.attempts[g].trace[i].checkpoint == LoadedState(entry)
    ensures StoredAction(track) == Some(track.attempts[g].trace[i])
  {
    LatestIsStored(entry, track);
    var stored := track.saved[|track.saved| - 1];
    g, i := stored.checkpoint.fence - 1, stored.index;
    DealtIsStarted(limits, id, entry, track, g + 1);
  }

  // Superseded attempts

  lemma UnstartedWroteNothing(limits: Limits, id: string, entry: Entry, track: Track, f: nat)
    requires TrackOk(limits, id, entry, track) && 1 <= f <= |track.attempts| && !AttemptOf(track, f).started
    ensures f !in track.writers
  {
    AttemptsApply(limits, id, entry, track, f);
    WroteNothing(entry.log, track.writers, f);
  }

  lemma {:induction false} WroteNothing(log: seq<RunEvent>, writers: seq<nat>, f: nat)
    requires |log| == |writers| && Part(log, writers, f) == []
    ensures f !in writers
  {
    if log != [] {
      WroteNothing(log[..|log| - 1], writers[..|log| - 1], f);
    }
  }

  lemma CurrentWrites(entry: Entry, track: Track, move: Move)
    requires CanMove(track, move) && |track.attempts| == entry.record.fence
    ensures forall w :: w in Moved(entry, track, move).1.writers ==> w in track.writers || w == |track.attempts|
  {
  }

  lemma StepWrites(limits: Limits, s: System, s': System, step: Label, id: string)
    requires s.tracks.Keys == s.repo.runs.Keys && Next(limits, s, s', step) && id in s.tracks && id in s'.tracks
    requires |s.tracks[id].attempts| == s.repo.runs[id].record.fence
    ensures forall w :: w in s'.tracks[id].writers ==> w in s.tracks[id].writers || w == |s.tracks[id].attempts|
  {
    if step.Creating? {
      CreationEffect(s.repo, step.request, step.now);
    } else if step.Moving? && step.id == id {
      CurrentWrites(s.repo.runs[id], s.tracks[id], step.move);
    }
  }

  lemma ReachedFence(limits: Limits, states: seq<System>, labels: seq<Label>, k: nat, id: string)
    requires Behaves(limits, states, labels) && k < |states| && id in states[k].tracks
    ensures id in states[k].repo.runs && |states[k].tracks[id].attempts| == states[k].repo.runs[id].record.fence
  {
    ReachedOk(limits, states, labels, k, id);
  }

  lemma SupersededStep(limits: Limits, states: seq<System>, labels: seq<Label>, k: nat, id: string, f: nat)
    requires Behaves(limits, states, labels) && k < |labels| && id in states[k].tracks
    requires f < |states[k].tracks[id].attempts| && f !in states[k].tracks[id].writers
    ensures id in states[k + 1].tracks
    ensures f < |states[k + 1].tracks[id].attempts| && f !in states[k + 1].tracks[id].writers
  {
    ReachedKeys(limits, states, labels, k);
    ReachedFence(limits, states, labels, k, id);
    assert Next(limits, states[k], states[k + 1], labels[k]);
    StepRemembers(limits, states[k], states[k + 1], labels[k], id);
    StepWrites(limits, states[k], states[k + 1], labels[k], id);
  }

  /** An attempt that has been superseded and has not logged never will. */
  lemma {:induction false} SupersededWriteNothing(limits: Limits, states: seq<System>, labels: seq<Label>, m: nat, k: nat, id: string, f: nat)
    requires Behaves(limits, states, labels) && m <= k < |states| && id in states[m].tracks
    requires f < |states[m].tracks[id].attempts| && f !in states[m].tracks[id].writers
    ensures id in states[k].tracks
    ensures f < |states[k].tracks[id].attempts| && f !in states[k].tracks[id].writers
  {
    if m < k {
      SupersededWriteNothing(limits, states, labels, m, k - 1, id, f);
      SupersededStep(limits, states, labels, k - 1, id, f);
    }
  }

  // Every attempt follows a history of crashes

  lemma FollowsAfresh(env: Env, request: RunRequest, att: Attempt)
    requires att.loaded == None && att.trace == Execute(env, request, None)
    ensures Follows(env, request, att, [])
  {
  }

  lemma {:induction false} FollowsOn(env: Env, request: RunRequest, att: Attempt, source: Attempt, before: seq<nat>, i: nat)
    requires Follows(env, request, source, before) && HasCheckpoint(source.trace, i) && Harmless(env, source.trace[i])
    requires att.loaded == source.trace[i].checkpoint && att.trace == Execute(env, request, att.loaded)
    ensures Follows(env, request, att, before + [i])
  {
    CrashesMore(env, request, before, i);
    assert (before + [i])[..|before|] == before;
  }

  lemma SameAttempt(limits: Limits, states: seq<System>, labels: seq<Label>, m: nat, k: nat, id: string, g: nat)
    requires Behaves(limits, states, labels) && m <= k < |states| && id in states[m].tracks
    requires g < |states[m].tracks[id].attempts| && states[m].tracks[id].attempts[g].started
    ensures id in states[k].tracks && g < |states[k].tracks[id].attempts|
    ensures var att, att' := states[m].tracks[id].attempts[g], states[k].tracks[id].attempts[g];
            && att'.started && att'.trace == att.trace && att'.loaded == att.loaded && att'.lease == att.lease
            && att.written <= att'.written
    ensures forall w :: w in states[m].tracks[id].writers ==> w in states[k].tracks[id].writers
  {
    TracksRemember(limits, states, labels, m, k, id);
    assert Continues(AttemptOf(states[m].tracks[id], g + 1), AttemptOf(states[k].tracks[id], g + 1));
  }

  /** The stored checkpoint, where it came from. */
  ghost predicate FoundAt(entry: Entry, track: Track, g: nat, i: nat) {
    && g < |track.attempts| && track.attempts[g].started && g + 1 in track.writers
    && i < track.attempts[g].written && HasCheckpoint(track.attempts[g].trace, i)
    && track.attempts[g].trace[i].checkpoint == LoadedState(entry)
    && StoredAction(track) == Some(track.attempts[g].trace[i])
  }

  lemma Finds(limits: Limits, states: seq<System>, labels: seq<Label>, m: nat, id: string) returns (g: nat, i: nat)
    requires Behaves(limits, states, labels) && m < |states| && id in states[m].tracks && id in states[m].repo.runs
    requires LoadedState(states[m].repo.runs[id]).Some?
    ensures FoundAt(states[m].repo.runs[id], states[m].tracks[id], g, i)
  {
    ReachedOk(limits, states, labels, m, id);
    g, i := LatestStored(limits, id, states[m].repo.runs[id], states[m].tracks[id]);
  }

  lemma ReachedUnstarted(limits: Limits, states: seq<System>, labels: seq<Label>, m: nat, id: string, n: nat)
    requires Behaves(limits, states, labels) && m < |states| && id in states[m].tracks
    requires n < |states[m].tracks[id].attempts| && !states[m].tracks[id].attempts[n].started
    ensures n + 1 !in states[m].tracks[id].writers
  {
    ReachedOk(limits, states, labels, m, id);
    UnstartedWroteNothing(limits, id, states[m].repo.runs[id], states[m].tracks[id], n + 1);
  }

  /** Where an attempt loads from: an attempt before it, if it is ever going to log. */
  lemma LoadsFrom(limits: Limits, states: seq<System>, labels: seq<Label>, m: nat, k: nat, id: string, n: nat) returns (g: nat, i: nat)
    requires Behaves(limits, states, labels) && m < k < |states| && id in states[m].tracks && id in states[m].repo.runs
    requires LoadedState(states[m].repo.runs[id]).Some? && id in states[k].tracks
    requires n < |states[m].tracks[id].attempts| <= |states[k].tracks[id].attempts| && !states[m].tracks[id].attempts[n].started
    ensures FoundAt(states[m].repo.runs[id], states[m].tracks[id], g, i)
    ensures Linked(states[k].tracks[id], n, [i], g)
  {
    g, i := Finds(limits, states, labels, m, id);
    ReachedUnstarted(limits, states, labels, m, id, n);
    SameAttempt(limits, states, labels, m, k, id, g);
    if n + 1 < |states[m].tracks[id].attempts| {
      SupersededWriteNothing(limits, states, labels, m, k, id, n + 1);
    }
  }

  lemma LeaseRequest(limits: Limits, states: seq<System>, labels: seq<Label>, k: nat, id: string, n: nat)
    requires Behaves(limits, states, labels) && k < |states| && id in states[k].tracks && n < |states[k].tracks[id].attempts|
    ensures id in states[k].repo.runs
    ensures RequestFrom(states[k].tracks[id].attempts[n].lease) == RequestFrom(states[k].repo.runs[id].record)
  {
    ReachedOk(limits, states, labels, k, id);
    AttemptsApply(limits, id, states[k].repo.runs[id], states[k].tracks[id], n + 1);
  }

  /**
    In every reachable state: each attempt on the run does what a call does after some history of crashes, the
    last at a checkpoint that another attempt had logged, an earlier one if this attempt logs anything itself.
   */
  lemma {:induction false} AlwaysTraced(limits: Limits, states: seq<System>, labels: seq<Label>, k: nat, id: string, env: Env,
                                        request: RunRequest, n: nat)
    returns (history: seq<nat>, g: nat)
    requires Behaves(limits, states, labels) && k < |states| && OneEnvironment(labels, id, env)
    requires HarmlessLoads(states, labels, id, env, k)
    requires id in states[k].tracks && n < |states[k].tracks[id].attempts| && states[k].tracks[id].attempts[n].started
    requires RequestFrom(states[k].tracks[id].attempts[n].lease) == request
    ensures Traced(env, request, states[k].tracks[id], n, history, g)
  {
    var att := states[k].tracks[id].attempts[n];
    var m := StartedBy(limits, states, labels, k, id, n + 1);
    history, g := [], 0;
    if att.loaded.None? {
      FollowsAfresh(env, request, att);
    } else {
      var i;
      TracksRemember(limits, states, labels, m, k, id);
      g, i := LoadsFrom(limits, states, labels, m, k, id, n);
      SameAttempt(limits, states, labels, m, k, id, g);
      LeaseRequest(limits, states, labels, k, id, n);
      LeaseRequest(limits, states, labels, k, id, g);
      var before, _ := AlwaysTraced(limits, states, labels, m, id, env, request, g);
      FollowsOn(env, request, att, states[m].tracks[id].attempts[g], before, i);
      history := before + [i];
      assert history[..|history| - 1] == before;
    }
  }

  // The log in pieces

  /** What an attempt that starts at this place has dealt with. */
  function PieceFrom(place: Place, att: Attempt): Piece {
    Piece(place.start, place.start + att.written, place.extra)
  }

  /** The attempt's piece starts where its history of crashes led, with the usage that was counted again on the way. */
  ghost predicate Stretch(env: Env, request: RunRequest, track: Track, n: nat, piece: Piece)
    requires n < |track.attempts|
  {
    exists history, g :: Traced(env, request, track, n, history, g) && piece == PieceFrom(PlaceOf(env, request, history), track.attempts[n])
  }

  lemma StartOf(env: Env, request: RunRequest, history: seq<nat>)
    requires Uninterrupted(env) && Crashes(env, request, history)
    ensures PlaceOf(env, request, history).start + |CallAfter(env, request, history)| == |Execute(env, request, None)|
  {
    CrashesTransparent(env, request, history);
  }

  /** A call resumed from what another had logged starts no later than where that one's worker has come. */
  lemma {:induction false} ResumesBehind(env: Env, request: RunRequest, history: seq<nat>, other: seq<nat>, written: nat)
    requires Uninterrupted(env) && history != [] && Crashes(env, request, history) && Crashes(env, request, other)
    requires CallAfter(env, request, other) == CallAfter(env, request, history[..|history| - 1])
    requires history[|history| - 1] < written
    ensures PlaceOf(env, request, history).start <= PlaceOf(env, request, other).start + written
  {
    CrashesBefore(env, request, history);
    StartOf(env, request, other);
    StartOf(env, request, history[..|history| - 1]);
    OneMoreCrash(env, request, history);
  }

  /** The first c pieces: those of fences that logged start within reach. */
  ghost predicate Stretches(env: Env, request: RunRequest, track: Track, pieces: seq<Piece>) {
    && |pieces| <= |track.attempts|
    && forall n :: 0 <= n < |pieces| ==>
         && (n + 1 in track.writers ==> Stretch(env, request, track, n, pieces[n]))
         && (n + 1 !in track.writers ==> pieces[n] == NOTHING)
         && pieces[n].from <= Furthest(pieces, n)
  }

  lemma {:induction false} FurthestOfMore(pieces: seq<Piece>, piece: Piece, n: nat)
    requires n <= |pieces|
    ensures Furthest(pieces + [piece], n) == Furthest(pieces, n)
  {
    if n > 0 {
      FurthestOfMore(pieces, piece, n - 1);
    }
  }

  lemma MoreStretches(env: Env, request: RunRequest, track: Track, pieces: seq<Piece>, piece: Piece)
    requires Stretches(env, request, track, pieces) && |pieces| < |track.attempts|
    requires |pieces| + 1 in track.writers ==> Stretch(env, request, track, |pieces|, piece)
    requires |pieces| + 1 !in track.writers ==> piece == NOTHING
    requires piece.from <= Furthest(pieces, |pieces|)
    ensures Stretches(env, request, track, pieces + [piece])
  {
    var pieces' := pieces + [piece];
    forall n | 0 <= n < |pieces'|
      ensures n + 1 in track.writers ==> Stretch(env, request, track, n, pieces'[n])
      ensures n + 1 !in track.writers ==> pieces'[n] == NOTHING
      ensures pieces'[n].from <= Furthest(pieces', n)
    {
      FurthestOfMore(pieces, piece, n);
      assert n < |pieces| ==> pieces'[n] == pieces[n];
    }
  }

  lemma StartsInReach(env: Env, request: RunRequest, track: Track, pieces: seq<Piece>, history: seq<nat>, g: nat)
    requires Uninterrupted(env) && Stretches(env, request, track, pieces) && |pieces| < |track.attempts|
    requires |pieces| + 1 in track.writers && Traced(env, request, track, |pieces|, history, g)
    ensures PlaceOf(env, request, history).start <= Furthest(pieces, |pieces|)
  {
    if history != [] {
      assert Stretch(env, request, track, g, pieces[g]);
      var other, g' :| Traced(env, request, track, g, other, g') && pieces[g] == PieceFrom(PlaceOf(env, request, other), track.attempts[g]);
      ResumesBehind(env, request, history, other, track.attempts[g].written);
      FurthestCovers(pieces, g, |pieces|);
    }
  }

  lemma WriterStarted(limits: Limits, states: seq<System>, labels: seq<Label>, k: nat, id: string, n: nat)
    requires Behaves(limits, states, labels) && k < |states| && id in states[k].tracks && n < |states[k].tracks[id].attempts|
    requires n + 1 in states[k].tracks[id].writers
    ensures states[k].tracks[id].attempts[n].started
  {
    if !states[k].tracks[id].attempts[n].started {
      ReachedUnstarted(limits, states, labels, k, id, n);
    }
  }

  lemma {:induction false} PiecesOf(limits: Limits, states: seq<System>, labels: seq<Label>, k: nat, id: string, env: Env,
                                    request: RunRequest, c: nat)
    returns (pieces: seq<Piece>)
    requires Behaves(limits, states, labels) && k < |states| && OneEnvironment(labels, id, env) && Uninterrupted(env)
    requires HarmlessLoads(states, labels, id, env, k)
    requires id in states[k].tracks && id in states[k].repo.runs && RequestFrom(states[k].repo.runs[id].record) == request
    requires c <= |states[k].tracks[id].attempts|
    ensures |pieces| == c && Stretches(env, request, states[k].tracks[id], pieces)
  {
    pieces := [];
    if c > 0 {
      var track, n := states[k].tracks[id], c - 1;
      pieces := PiecesOf(limits, states, labels, k, id, env, request, n);
      var piece := NOTHING;
      if c in track.writers {
        WriterStarted(limits, states, labels, k, id, n);
        LeaseRequest(limits, states, labels, k, id, n);
        var history, g := AlwaysTraced(limits, states, labels, k, id, env, request, n);
        piece := PieceFrom(PlaceOf(env, request, history), track.attempts[n]);
        StartsInReach(env, request, track, pieces, history, g);
      }
      MoreStretches(env, request, track, pieces, piece);
      pieces := pieces + [piece];
    }
  }

  lemma ReachedSorted(limits: Limits, states: seq<System>, labels: seq<Label>, k: nat, id: string)
    requires Behaves(limits, states, labels) && k < |states| && id in states[k].tracks
    ensures id in states[k].repo.runs
    ensures var log, track := states[k].repo.runs[id].log, states[k].tracks[id];
            && |log| == |track.writers| && Sorted(track.writers)
            && forall p :: 1 <= p < |log| ==> track.writers[p] <= |track.attempts|
  {
    ReachedOk(limits, states, labels, k, id);
  }

  lemma ReachedPart(limits: Limits, states: seq<System>, labels: seq<Label>, k: nat, id: string, n: nat)
    requires Behaves(limits, states, labels) && k < |states| && id in states[k].tracks && n < |states[k].tracks[id].attempts|
    ensures id in states[k].repo.runs
    ensures var log, track := states[k].repo.runs[id].log, states[k].tracks[id];
            && |log| == |track.writers|
            && track.attempts[n].written <= |track.attempts[n].trace|
            && Part(log, track.writers, n + 1) == Sent(track.attempts[n].trace, track.attempts[n].written)
  {
    ReachedOk(limits, states, labels, k, id);
    AttemptsApply(limits, id, states[k].repo.runs[id], states[k].tracks[id], n + 1);
  }

  lemma RestSpells(whole: seq<Action>, place: Place, trace: seq<Action>, n: nat)
    requires place.start <= |whole| && trace == Shift(whole[place.start..], place.extra) && n <= |trace|
    ensures place.start + n <= |whole|
    ensures Sent(trace, n) == Spell(whole, place.start, place.start + n, place.extra)
  {
    SentIsSpell(whole, place.start, place.extra, trace, n);
  }

  lemma AttemptSpells(env: Env, request: RunRequest, att: Attempt, history: seq<nat>, place: Place, whole: seq<Action>)
    requires Uninterrupted(env) && Crashes(env, request, history) && att.trace == CallAfter(env, request, history)
    requires att.written <= |att.trace| && place == PlaceOf(env, request, history) && whole == Execute(env, request, None)
    ensures var piece := PieceFrom(place, att);
            && piece.from <= piece.to <= |whole|
            && Sent(att.trace, att.written) == Spell(whole, piece.from, piece.to, piece.extra)
  {
    CrashesTransparent(env, request, history);
    RestSpells(whole, place, att.trace, att.written);
  }

  /** What a fence logged is its stretch of the whole. */
  lemma StretchIsPart(env: Env, request: RunRequest, track: Track, n: nat, piece: Piece, log: seq<RunEvent>)
    requires Uninterrupted(env) && n < |track.attempts| && Stretch(env, request, track, n, piece) && |log| == |track.writers|
    requires track.attempts[n].written <= |track.attempts[n].trace|
    requires Part(log, track.writers, n + 1) == Sent(track.attempts[n].trace, track.attempts[n].written)
    ensures var whole := Execute(env, request, None);
            && piece.from <= piece.to <= |whole|
            && Part(log, track.writers, n + 1) == Spell(whole, piece.from, piece.to, piece.extra)
  {
    var history, g :| Traced(env, request, track, n, history, g) && piece == PieceFrom(PlaceOf(env, request, history), track.attempts[n]);
    AttemptSpells(env, request, track.attempts[n], history, PlaceOf(env, request, history), Execute(env, request, None));
  }

  lemma PieceFits(limits: Limits, states: seq<System>, labels: seq<Label>, k: nat, id: string, env: Env, request: RunRequest,
                  pieces: seq<Piece>, n: nat)
    requires Behaves(limits, states, labels) && k < |states| && Uninterrupted(env)
    requires id in states[k].tracks && id in states[k].repo.runs
    requires Stretches(env, request, states[k].tracks[id], pieces) && n < |pieces|
    ensures |states[k].repo.runs[id].log| == |states[k].tracks[id].writers|
    ensures PieceOk(Execute(env, request, None), states[k].repo.runs[id].log, states[k].tracks[id].writers, pieces, n)
  {
    var log, track := states[k].repo.runs[id].log, states[k].tracks[id];
    ReachedPart(limits, states, labels, k, id, n);
    if n + 1 in track.writers {
      StretchIsPart(env, request, track, n, pieces[n], log);
    } else {
      PartEmpty(log, track.writers, n + 1);
    }
  }

  /** Every attempt that logged is there with the stretch that its crash history led to. */
  ghost predicate Accounted(env: Env, request: RunRequest, entry: Entry, track: Track, pieces: seq<Piece>) {
    && |pieces| == |track.attempts|
    && Stretches(env, request, track, pieces)
    && InPieces(Execute(env, request, None), entry.log, track.writers, pieces)
  }

  /**
    In every reachable state: the log behind its first event is, fence by fence, consecutive pieces of the call
    that never crashed, each starting no later than the furthest point reached before, and each with exactly the
    usage more in its totals that its crash history counted again.
   */
  lemma LogInPieces(limits: Limits, states: seq<System>, labels: seq<Label>, k: nat, id: string, env: Env, request: RunRequest)
    returns (pieces: seq<Piece>)
    requires Behaves(limits, states, labels) && k < |states| && OneEnvironment(labels, id, env) && Uninterrupted(env)
    requires HarmlessLoads(states, labels, id, env, k)
    requires id in states[k].tracks && id in states[k].repo.runs && RequestFrom(states[k].repo.runs[id].record) == request
    ensures Accounted(env, request, states[k].repo.runs[id], states[k].tracks[id], pieces)
    ensures var whole, log := Execute(env, request, None), states[k].repo.runs[id].log;
            && (forall n :: 0 <= n < |pieces| ==> pieces[n].from <= pieces[n].to <= |whole|)
            && log != [] && Contents(log) == Spelled(whole, pieces, |pieces|)
  {
    var entry, track := states[k].repo.runs[id], states[k].tracks[id];
    pieces := PiecesOf(limits, states, labels, k, id, env, request, |track.attempts|);
    ReachedSorted(limits, states, labels, k, id);
    forall n | 0 <= n < |pieces|
      ensures PieceOk(Execute(env, request, None), entry.log, track.writers, pieces, n)
    {
      PieceFits(limits, states, labels, k, id, env, request, pieces, n);
    }
    LogIsSpelled(Execute(env, request, None), entry.log, track.writers, pieces);
  }

  /** Crashes add nothing: every event behind the first is an output of the call that never crashed, recounted. */
  lemma NothingAdded(limits: Limits, states: seq<System>, labels: seq<Label>, k: nat, id: string, env: Env, request: RunRequest, p: nat)
    returns (pieces: seq<Piece>, j: nat)
    requires Behaves(limits, states, labels) && k < |states| && OneEnvironment(labels, id, env) && Uninterrupted(env)
    requires HarmlessLoads(states, labels, id, env, k)
    requires id in states[k].tracks && id in states[k].repo.runs && RequestFrom(states[k].repo.runs[id].record) == request
    requires 1 <= p < |states[k].repo.runs[id].log|
    ensures Accounted(env, request, states[k].repo.runs[id], states[k].tracks[id], pieces)
    ensures IsOutput(Execute(env, request, None), states[k].repo.runs[id].log, states[k].tracks[id].writers, pieces, p, j)
  {
    pieces := LogInPieces(limits, states, labels, k, id, env, request);
    j := EventIsOutput(Execute(env, request, None), states[k].repo.runs[id].log, states[k].tracks[id].writers, pieces, p);
  }

  /** The log holds every output of the whole in order, and both end with the same event and final result. */
  ghost predicate Preserved(whole: seq<Action>, entry: Entry, writers: seq<nat>, pieces: seq<Piece>, at: seq<nat>) {
    && whole != [] && Terminal(whole[|whole| - 1])
    && HeldInOrder(whole, |whole|, entry.log, writers, pieces, at)
    && at[|whole| - 1] == |entry.log| - 1
    && entry.record.finalResult.Some?
    && whole[|whole| - 1].payload == ResultPayload(entry.record.finalResult.value)
  }

  lemma FinishedPreserves(id: string, entry: Entry, writers: seq<nat>, whole: seq<Action>, pieces: seq<Piece>) returns (at: seq<nat>)
    requires InPieces(whole, entry.log, writers, pieces)
    requires WellShaped(id, entry.record, entry.log) && IsTerminal(entry.record.status)
    requires forall j :: 0 <= j < |whole| - 1 ==> !Terminal(whole[j])
    ensures Preserved(whole, entry, writers, pieces, at)
  {
    var p := |entry.log| - 1;
    var last := EventIsOutput(whole, entry.log, writers, pieces, p);
    assert PieceOk(whole, entry.log, writers, pieces, writers[p] - 1);
    assert Terminal(whole[last]);
    FurthestCovers(pieces, writers[p] - 1, |pieces|);
    at := OutputsInOrder(whole, entry.log, writers, pieces, |pieces|);
    assert IsOutput(whole, entry.log, writers, pieces, at[last], last);
  }

  lemma TerminalIsLast(env: Env, request: RunRequest)
    ensures forall j :: 0 <= j < |Execute(env, request, None)| - 1 ==> !Terminal(Execute(env, request, None)[j])
  {
    ExecuteCloses(env, request, None);
  }

  /**
    Crashes lose nothing: when the run is finished, however many workers it took, every output of the call that
    never crashed is in its log, in the same order, and the log ends with the same event and final result.
   */
  lemma NothingLost(limits: Limits, states: seq<System>, labels: seq<Label>, k: nat, id: string, env: Env, request: RunRequest)
    returns (pieces: seq<Piece>, at: seq<nat>)
    requires Behaves(limits, states, labels) && k < |states| && OneEnvironment(labels, id, env) && Uninterrupted(env)
    requires HarmlessLoads(states, labels, id, env, k)
    requires id in states[k].tracks && id in states[k].repo.runs && RequestFrom(states[k].repo.runs[id].record) == request
    requires IsTerminal(states[k].repo.runs[id].record.status)
    ensures Accounted(env, request, states[k].repo.runs[id], states[k].tracks[id], pieces)
    ensures Preserved(Execute(env, request, None), states[k].repo.runs[id], states[k].tracks[id].writers, pieces, at)
  {
    pieces := LogInPieces(limits, states, labels, k, id, env, request);
    LogShape(limits, states, labels, k, id);
    TerminalIsLast(env, request);
    at := FinishedPreserves(id, states[k].repo.runs[id], states[k].tracks[id].writers, Execute(env, request, None), pieces);
  }

  // Calls whose checkpoints are all harmless

  /** No usage limits, and wherever the uninterrupted call stores a pending call it may be replayed. */
  ghost predicate Replayable(env: Env, request: RunRequest) {
    && Uninterrupted(env) && Uncapped(env.limits)
    && var whole := Execute(env, request, None);
    forall j :: 0 <= j < |whole| && HasCheckpoint(whole, j) ==> MayReplay(env, whole[j])
  }

  predicate MayReplay(env: Env, a: Action)
    requires a.Emit? && a.checkpoint.Some?
  {
    Runnable(a.checkpoint.value) && (a.event == UsageRecorded || !ReachesUnsafe(env, a.checkpoint.value))
  }

  lemma RestIsHarmless(env: Env, whole: seq<Action>, place: Place, call: seq<Action>, i: nat)
    requires Uncapped(env.limits) && forall j :: 0 <= j < |whole| && HasCheckpoint(whole, j) ==> MayReplay(env, whole[j])
    requires place.start <= |whole| && call == Shift(whole[place.start..], place.extra) && HasCheckpoint(call, i)
    ensures Harmless(env, call[i])
  {
    var j := place.start + i;
    assert call[i] == ShiftAction(whole[j], place.extra);
    assert HasCheckpoint(whole, j);
    UncappedIsHarmless(env, whole[j], place.extra);
  }

  lemma ReplayableAction(env: Env, request: RunRequest, history: seq<nat>, call: seq<Action>, i: nat)
    requires Replayable(env, request) && Crashes(env, request, history)
    requires call == CallAfter(env, request, history) && HasCheckpoint(call, i)
    ensures Harmless(env, call[i])
  {
    CrashesTransparent(env, request, history);
    RestIsHarmless(env, Execute(env, request, None), PlaceOf(env, request, history), call, i);
  }

  lemma StoredIsLoaded(limits: Limits, states: seq<System>, labels: seq<Label>, k: nat, id: string)
    requires Behaves(limits, states, labels) && k < |states| && id in states[k].tracks && StoredAction(states[k].tracks[id]).Some?
    ensures id in states[k].repo.runs && LoadedState(states[k].repo.runs[id]).Some?
  {
    ReachedOk(limits, states, labels, k, id);
  }

  lemma LoadIsHarmless(limits: Limits, states: seq<System>, labels: seq<Label>, k: nat, id: string, env: Env, request: RunRequest)
    requires Behaves(limits, states, labels) && k < |labels| && OneEnvironment(labels, id, env) && Replayable(env, request)
    requires HarmlessLoads(states, labels, id, env, k)
    requires id in states[k].tracks && StoredAction(states[k].tracks[id]).Some?
    requires id in states[k].repo.runs && RequestFrom(states[k].repo.runs[id].record) == request
    ensures Harmless(env, StoredAction(states[k].tracks[id]).value)
  {
    StoredIsLoaded(limits, states, labels, k, id);
    var g, i := Finds(limits, states, labels, k, id);
    LeaseRequest(limits, states, labels, k, id, g);
    var history, _ := AlwaysTraced(limits, states, labels, k, id, env, request, g);
    ReplayableAction(env, request, history, states[k].tracks[id].attempts[g].trace, i);
  }

  /** Then every load is harmless, and all of the above holds of every run of the system. */
  lemma {:induction false} ReplayableIsHarmless(limits: Limits, states: seq<System>, labels: seq<Label>, k: nat, id: string, env: Env, request: RunRequest)
    requires Behaves(limits, states, labels) && k <= |labels| && OneEnvironment(labels, id, env) && Replayable(env, request)
    requires id in states[|labels|].repo.runs && RequestFrom(states[|labels|].repo.runs[id].record) == request
    ensures HarmlessLoads(states, labels, id, env, k)
  {
    if k > 0 {
      ReplayableIsHarmless(limits, states, labels, k - 1, id, env, request);
      if id in states[k - 1].tracks && StoredAction(states[k - 1].tracks[id]).Some? {
        ReachedKeys(limits, states, labels, k - 1);
        RunsGrow(limits, states, labels, k - 1, |labels|, id);
        LoadIsHarmless(limits, states, labels, k - 1, id, env, request);
      }
    }
  }
}
