/**
  How far an engine can be ahead of what is stored: at any moment, of the outputs whose checkpoints are not
  all stored, one at most is in the worker's hands and the others are in the channel.
 */
module Backlog {
  import opened Domain
  import opened EngineState
  import opened Engine
  import opened Store
  import opened Workers
  import opened WorkersInvariant
  import opened WorkersSteps
  import opened WorkersSafety
  import opened Guarantees

  predicate SavedAt(saved: seq<Stored>, fence: nat, index: nat, state: ExecutionState) {
    exists k :: 0 <= k < |saved| && saved[k].checkpoint.fence == fence && saved[k].index == index && saved[k].checkpoint.state == state
  }

  /** Every checkpoint among the first n outputs of the attempt is stored. */
  ghost predicate AllSaved(saved: seq<Stored>, fence: nat, trace: seq<Action>, n: nat)
    requires n <= |trace|
  {
    forall i :: 0 <= i < n && trace[i].Emit? && trace[i].event != RunCreated && trace[i].checkpoint.Some?
                ==> SavedAt(saved, fence, i, trace[i].checkpoint.value)
  }

  /** The worker is done with everything before this index. */
  function Settled(att: Attempt): nat {
    if 0 < att.written && (att.hand.Saving? || att.hand == Hand.Gone(false)) then att.written - 1 else att.written
  }

  ghost predicate Backlogged(saved: seq<Stored>, fence: nat, att: Attempt) {
    && att.written <= att.produced <= |att.trace|
    && (!att.started ==> att.trace == [])
    && InChannel(att) <= CHANNEL_CAPACITY
    && AllSaved(saved, fence, att.trace, Settled(att))
    && (att.hand.Saving? ==>
          0 < att.written && att.trace[att.written - 1].Emit? && att.trace[att.written - 1].checkpoint == Some(att.hand.state))
  }

  ghost predicate AllBacklogged(track: Track) {
    forall n :: 0 <= n < |track.attempts| ==> Backlogged(track.saved, n + 1, track.attempts[n])
  }

  /** A tool with side effects was entered by an attempt. */
  predicate Ran(track: Track, f: nat, i: nat) {
    && 1 <= f <= |track.attempts|
    && i < AttemptOf(track, f).produced <= |AttemptOf(track, f).trace|
    && AttemptOf(track, f).trace[i].Invoke?
    && !AttemptOf(track, f).trace[i].readOnly
  }

  // Counting outputs

  lemma {:induction false} WaitingFrom(trace: seq<Action>, from: nat, to: nat)
    requires from < to <= |trace|
    ensures Waiting(trace, from, to) == (if trace[from].Emit? then 1 else 0) + Waiting(trace, from + 1, to)
  {
    if from + 1 < to {
      WaitingFrom(trace, from, to - 1);
    }
  }

  lemma {:induction false} WaitingSplits(trace: seq<Action>, from: nat, mid: nat, to: nat)
    requires from <= mid <= to <= |trace|
    ensures Waiting(trace, from, to) == Waiting(trace, from, mid) + Waiting(trace, mid, to)
  {
    if mid < to {
      WaitingSplits(trace, from, mid, to - 1);
    }
  }

  lemma {:induction false} WaitingBehind(before: seq<Action>, rest: seq<Action>, from: nat, to: nat)
    requires from <= to <= |rest|
    ensures Waiting(before + rest, |before| + from, |before| + to) == Waiting(rest, from, to)
  {
    if from < to {
      WaitingBehind(before, rest, from, to - 1);
    }
  }

  /** What is not settled fits the channel and the worker's hand. */
  lemma UnsettledFits(saved: seq<Stored>, fence: nat, att: Attempt)
    requires Backlogged(saved, fence, att)
    ensures Waiting(att.trace, Settled(att), att.produced) <= CHANNEL_CAPACITY + 1
  {
    if att.written < att.produced {
      WaitingFrom(att.trace, att.written, att.produced);
    }
    WaitingSplits(att.trace, Settled(att), att.written, att.produced);
    if Settled(att) < att.written {
      WaitingFrom(att.trace, Settled(att), att.written);
    }
  }

  // Steps

  lemma SavedStays(saved: seq<Stored>, saved': seq<Stored>, fence: nat, trace: seq<Action>, n: nat)
    requires n <= |trace| && AllSaved(saved, fence, trace, n) && saved <= saved'
    ensures AllSaved(saved', fence, trace, n)
  {
    forall i, state | SavedAt(saved, fence, i, state)
      ensures SavedAt(saved', fence, i, state)
    {
      var k :| 0 <= k < |saved| && saved[k].checkpoint.fence == fence && saved[k].index == i && saved[k].checkpoint.state == state;
      assert saved'[k] == saved[k];
    }
  }

  lemma OneBacklogged(track: Track, fence: nat, att': Attempt)
    requires AllBacklogged(track) && 1 <= fence <= |track.attempts| && Backlogged(track.saved, fence, att')
    ensures AllBacklogged(WithAttempt(track, fence, att'))
  {
  }

  lemma ProducedBacklogged(saved: seq<Stored>, fence: nat, att: Attempt)
    requires Backlogged(saved, fence, att) && att.produced < |att.trace|
    requires att.trace[att.produced].Emit? ==> InChannel(att) < CHANNEL_CAPACITY
    ensures Backlogged(saved, fence, Produced(att))
  {
  }

  lemma TakenBacklogged(saved: seq<Stored>, fence: nat, att: Attempt)
    requires Backlogged(saved, fence, att) && att.hand.Idle? && att.written < att.produced
    ensures Backlogged(saved, fence, Taken(att))
  {
    WaitingFrom(att.trace, att.written, att.produced);
  }

  lemma LeftBacklogged(saved: seq<Stored>, fence: nat, att: Attempt)
    requires Backlogged(saved, fence, att)
    ensures Backlogged(saved, fence, Left(att))
  {
  }

  lemma WrittenBacklogged(saved: seq<Stored>, fence: nat, att: Attempt, hand: Hand)
    requires Backlogged(saved, fence, att) && att.hand.Writing? && att.written < att.produced && att.trace[att.written].Emit?
    requires hand == Hand.Gone(false) || (hand.Idle? && att.trace[att.written].checkpoint.None?)
             || (hand.Saving? && att.trace[att.written].checkpoint == Some(hand.state))
    ensures Backlogged(saved, fence, Written(att, hand))
  {
  }

  lemma SavedBacklogged(saved: seq<Stored>, fence: nat, att: Attempt, stored: Stored)
    requires Backlogged(saved, fence, att) && att.hand.Saving?
    requires stored.checkpoint.fence == fence && stored.index == att.written - 1 && stored.checkpoint.state == att.hand.state
    ensures Backlogged(saved + [stored], fence, att.(hand := Idle))
  {
    SavedStays(saved, saved + [stored], fence, att.trace, Settled(att));
    assert (saved + [stored])[|saved|] == stored;
    assert SavedAt(saved + [stored], fence, att.written - 1, att.hand.state);
  }

  lemma SaveBacklogged(entry: Entry, track: Track, fence: nat, now: Time)
    requires AllBacklogged(track) && CanMove(track, Move.Save(fence, now))
    ensures AllBacklogged(SavedNow(entry, track, fence, now).1)
  {
    var att := AttemptOf(track, fence);
    var track' := SavedNow(entry, track, fence, now).1;
    if track'.saved == track.saved {
      LeftBacklogged(track.saved, fence, att);
      OneBacklogged(track, fence, Left(att));
    } else {
      var stored := Stored(CheckpointIn(att, fence, now), att.written - 1);
      forall n | 0 <= n < |track'.attempts|
        ensures Backlogged(track'.saved, n + 1, track'.attempts[n])
      {
        if n == fence - 1 {
          SavedBacklogged(track.saved, fence, att, stored);
        } else {
          SavedStays(track.saved, track'.saved, n + 1, track.attempts[n].trace, Settled(track.attempts[n]));
        }
      }
    }
  }

  lemma WriteBacklogged(entry: Entry, track: Track, fence: nat, now: Time)
    requires AllBacklogged(track) && CanMove(track, Write(fence, now))
    ensures AllBacklogged(Wrote(entry, track, fence, now).1)
  {
    var att := AttemptOf(track, fence);
    var track' := Wrote(entry, track, fence, now).1;
    var att' := AttemptOf(track', fence);
    if att'.written == att.written {
      LeftBacklogged(track.saved, fence, att);
    } else {
      WrittenBacklogged(track.saved, fence, att, att'.hand);
    }
    OneBacklogged(track, fence, att');
    assert track'.attempts == WithAttempt(track, fence, att').attempts;
  }

  lemma MoveBacklogged(entry: Entry, track: Track, move: Move)
    requires AllBacklogged(track) && CanMove(track, move)
    ensures AllBacklogged(Moved(entry, track, move).1)
  {
    var fence := move.fence;
    var att := AttemptOf(track, fence);
    match move
    case Produce(_) =>
      ProducedBacklogged(track.saved, fence, att);
      OneBacklogged(track, fence, Produced(att));
    case StopEngine(_) => OneBacklogged(track, fence, att.(engineUp := false));
    case Take(_) =>
      TakenBacklogged(track.saved, fence, att);
      OneBacklogged(track, fence, Taken(att));
    case Write(_, now) => WriteBacklogged(entry, track, fence, now);
    case Save(_, now) => SaveBacklogged(entry, track, fence, now);
    case Heartbeat(_, _, _) =>
    case Leave(_) =>
      LeftBacklogged(track.saved, fence, att);
      OneBacklogged(track, fence, Left(att));
  }

  lemma LeaseBacklogged(track: Track, lease: RunRecord)
    requires AllBacklogged(track)
    ensures AllBacklogged(LeasedTrack(track, lease))
  {
    assert Backlogged(track.saved, |track.attempts| + 1, NewAttempt(lease));
  }

  lemma LoadBacklogged(entry: Entry, track: Track, fence: nat, trace: seq<Action>)
    requires AllBacklogged(track) && 1 <= fence <= |track.attempts|
    requires !AttemptOf(track, fence).started && !AttemptOf(track, fence).hand.Saving?
    ensures AllBacklogged(LoadedTrack(entry, track, fence, trace))
  {
    OneBacklogged(track, fence, AttemptOf(track, fence).(started := true, loaded := LoadedState(entry), trace := trace));
  }

  lemma StepBacklogged(limits: Limits, s: System, s': System, step: Label, id: string)
    requires s.tracks.Keys == s.repo.runs.Keys && Next(limits, s, s', step) && id in s'.tracks
    requires id in s.tracks ==> AllBacklogged(s.tracks[id]) && NoneSavesUnstarted(s.tracks[id])
    ensures AllBacklogged(s'.tracks[id])
  {
    if id in s.tracks && s'.tracks[id] != s.tracks[id] {
      match step
      case Creating(request, now) => CreationEffect(s.repo, request, now);
      case Leasing(_, _, _, _) => LeaseBacklogged(s.tracks[id], s'.repo.runs[id].record);
      case Loading(_, fence, env) =>
        var request := RequestFrom(AttemptOf(s.tracks[id], fence).lease);
        LoadBacklogged(s.repo.runs[id], s.tracks[id], fence, Execute(env, request, LoadedState(s.repo.runs[id])));
      case Moving(_, move) => MoveBacklogged(s.repo.runs[id], s.tracks[id], move);
    }
  }

  ghost predicate NoneSavesUnstarted(track: Track) {
    forall n :: 0 <= n < |track.attempts| && !track.attempts[n].started ==> !track.attempts[n].hand.Saving?
  }

  lemma SavingIsStarted(limits: Limits, id: string, entry: Entry, track: Track)
    requires TrackOk(limits, id, entry, track)
    ensures NoneSavesUnstarted(track)
  {
    forall n | 0 <= n < |track.attempts| && !track.attempts[n].started
      ensures !track.attempts[n].hand.Saving?
    {
      AttemptsApply(limits, id, entry, track, n + 1);
    }
  }

  lemma ReachedStarted(limits: Limits, states: seq<System>, labels: seq<Label>, k: nat, id: string)
    requires Behaves(limits, states, labels) && k < |states| && id in states[k].tracks
    ensures NoneSavesUnstarted(states[k].tracks[id])
  {
    ReachedOk(limits, states, labels, k, id);
    SavingIsStarted(limits, id, states[k].repo.runs[id], states[k].tracks[id]);
  }

  /** In every reachable state the checkpoints an attempt has not stored yet are those of its last 33 outputs at most. */
  lemma {:induction false} AlwaysBacklogged(limits: Limits, states: seq<System>, labels: seq<Label>, k: nat, id: string)
    requires Behaves(limits, states, labels) && k < |states| && id in states[k].tracks
    ensures AllBacklogged(states[k].tracks[id])
  {
    if k > 0 {
      var s := states[k - 1];
      ReachedKeys(limits, states, labels, k - 1);
      assert Next(limits, s, states[k - 1 + 1], labels[k - 1]);
      if id in s.tracks {
        AlwaysBacklogged(limits, states, labels, k - 1, id);
        ReachedStarted(limits, states, labels, k - 1, id);
      }
      StepBacklogged(limits, s, states[k], labels[k - 1], id);
    }
  }
}
