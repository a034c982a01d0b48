/**
  The server-sent event stream of a run: a cursor that follows a log while the log grows, and what a client
  may conclude from what was written to its connection.
 */
module EventStream {
  import opened Domain
  import opened Store
  import opened Engine
  import opened Workers
  import opened Guarantees
  import opened Schedules

  /**
    One round of the polling loop: what listing the events saw, how many writes the connection takes, and
    what the status check saw, which comes later. `None` is a failed read.
   */
  datatype Poll = Poll(listed: Option<Entry>, writes: nat, checked: Option<Entry>)

  /** How a connection ends: still open, closed by the server at the end of the run, or broken off. */
  datatype End = StillOpen | Closed | Broken

  /** What one round writes, and the cursor it leaves, or how it ended the stream. */
  datatype Round = Goes(events: seq<RunEvent>, cursor: nat) | Stops(events: seq<RunEvent>, end: End)

  predicate AnyTerminal(events: seq<RunEvent>) {
    exists i :: 0 <= i < |events| && TerminalEvent(events[i].event)
  }

  /** A round that lists nothing looks at the status of the run. */
  function CheckRound(poll: Poll, cursor: nat): Round {
    if poll.checked.None? then Stops([], Broken)
    else if IsTerminal(poll.checked.value.record.status) then Stops([], Closed)
    else Goes([], cursor)
  }

  function RoundOf(poll: Poll, cursor: nat): Round {
    if poll.listed.None? then Stops([], Broken)
    else
      var events := EventsAfter(poll.listed.value.log, cursor);
      if poll.writes < |events| then Stops(events[..poll.writes], Broken)
      else if events == [] then CheckRound(poll, cursor)
      else if AnyTerminal(events) then Stops(events, Closed)
      else Goes(events, events[|events| - 1].sequence)
  }

  /** What is written on a connection from the n-th poll and a cursor on, and how it ends. */
  function Watch(polls: seq<Poll>, n: nat, cursor: nat): (seq<RunEvent>, End)
    requires n <= |polls|
    decreases |polls| - n
  {
    if n == |polls| then ([], StillOpen)
    else
      match RoundOf(polls[n], cursor)
      case Stops(events, end) => (events, end)
      case Goes(events, next) =>
        var rest := Watch(polls, n + 1, next);
        (events + rest.0, rest.1)
  }

  // The loop

  class Connection {
    var written: seq<RunEvent>

    constructor ()
      ensures written == []
    {
      written := [];
    }

    /** Writes what is available past the cursor, up to the first write that fails. */
    method WriteAvailable(poll: Poll, cursor: nat) returns (answer: Option<(bool, nat)>)
      modifies this
      ensures written == old(written) + RoundOf(poll, cursor).events
      ensures answer == match RoundOf(poll, cursor)
                        case Stops(events, end) =>
                          if end == Broken then None
                          else Some((true, if events == [] then cursor else events[|events| - 1].sequence))
                        case Goes(_, next) => Some((false, next))
    {
      if poll.listed.None? {
        return None;
      }
      var events := EventsAfter(poll.listed.value.log, cursor);
      var latest, terminal := cursor, false;
      for n := 0 to |events|
        invariant n <= poll.writes
        invariant written == old(written) + events[..n]
        invariant latest == if n == 0 then cursor else events[n - 1].sequence
        invariant terminal <==> AnyTerminal(events[..n])
      {
        if n == poll.writes {
          return None;
        }
        assert events[..n + 1] == events[..n] + [events[n]];
        written := written + [events[n]];
        latest := events[n].sequence;
        OneMore(events[..n], events[n]);
        if TerminalStatus(events[n].event).Some? {
          terminal := true;
        }
      }
      assert events[..|events|] == events;
      if |events| == 0 {
        if poll.checked.None? {
          return None;
        }
        terminal := IsTerminal(poll.checked.value.record.status);
      }
      return Some((terminal, latest));
    }

    method Stream(polls: seq<Poll>, after: nat) returns (end: End)
      requires written == []
      modifies this
      ensures (written, end) == Watch(polls, 0, after)
    {
      var cursor := after;
      for n := 0 to |polls|
        invariant written + Watch(polls, n, cursor).0 == Watch(polls, 0, after).0
        invariant Watch(polls, n, cursor).1 == Watch(polls, 0, after).1
      {
        WatchNext(polls, n, cursor, written);
        CursorMoves(polls[n], cursor);
        var answer := WriteAvailable(polls[n], cursor);
        if answer.None? {
          return Broken;
        }
        if answer.value.1 > cursor {
          cursor := answer.value.1;
        }
        if answer.value.0 {
          return Closed;
        }
      }
      assert written + [] == written;
      return StillOpen;
    }
  }

  lemma WatchNext(polls: seq<Poll>, n: nat, cursor: nat, written: seq<RunEvent>)
    requires n < |polls|
    ensures match RoundOf(polls[n], cursor)
            case Stops(events, end) => Watch(polls, n, cursor) == (events, end)
            case Goes(events, next) =>
              && written + Watch(polls, n, cursor).0 == written + events + Watch(polls, n + 1, next).0
              && Watch(polls, n, cursor).1 == Watch(polls, n + 1, next).1
  {
  }

  lemma OneMore(events: seq<RunEvent>, event: RunEvent)
    ensures AnyTerminal(events + [event]) <==> AnyTerminal(events) || TerminalEvent(event.event)
  {
    var all := events + [event];
    assert all[|events|] == event;
    if AnyTerminal(events) {
      var i :| 0 <= i < |events| && TerminalEvent(events[i].event);
      assert all[i] == events[i];
    }
  }

  lemma {:induction false} PastCursor(log: seq<RunEvent>, after: nat)
    ensures forall i :: 0 <= i < |EventsAfter(log, after)| ==> EventsAfter(log, after)[i].sequence > after
  {
    if log != [] {
      PastCursor(log[..|log| - 1], after);
    }
  }

  lemma CursorMoves(poll: Poll, cursor: nat)
    ensures RoundOf(poll, cursor).Goes? ==> RoundOf(poll, cursor).cursor >= cursor
  {
    if poll.listed.Some? {
      PastCursor(poll.listed.value.log, cursor);
    }
  }

  // What a client may conclude

  /** Listing a numbered log from a cursor gives the events right behind the cursor. */
  lemma {:induction false} ListedBehind(id: string, log: seq<RunEvent>, after: nat)
    requires LogNumbered(id, log)
    ensures EventsAfter(log, after) == if after <= |log| then log[after..] else []
  {
    if log != [] {
      var before := log[..|log| - 1];
      ListedBehind(id, before, after);
      if after < |log| {
        assert log[after..] == before[after..] + [log[|log| - 1]];
      }
    }
  }

  /** What a poll saw was, at some time, the run that is `e` now or later. */
  predicate Saw(poll: Poll, e: Entry) {
    && (poll.listed.Some? ==> poll.listed.value.log <= e.log)
    && (poll.checked.Some? ==> poll.checked.value.log <= e.log)
  }

  ghost predicate PollsOf(id: string, polls: seq<Poll>, e: Entry) {
    WellShaped(id, e.record, e.log) && forall n :: 0 <= n < |polls| ==> Saw(polls[n], e)
  }

  /** Written events stand right behind the cursor, and a terminal one is the last of the run. */
  ghost predicate Follow(written: seq<RunEvent>, cursor: nat, e: Entry) {
    && (written != [] ==> cursor + |written| <= |e.log|)
    && (forall i :: 0 <= i < |written| ==> written[i] == e.log[cursor + i])
    && (AnyTerminal(written) ==> cursor + |written| == |e.log|)
  }

  lemma ListedFollow(id: string, seen: Entry, e: Entry, cursor: nat)
    requires WellShaped(id, e.record, e.log) && seen.log <= e.log
    ensures var events := EventsAfter(seen.log, cursor);
            && Follow(events, cursor, e)
            && (events != [] ==> cursor + |events| == |seen.log| && events[|events| - 1].sequence == cursor + |events|)
            && (events == [] ==> |seen.log| <= cursor)
  {
    assert LogNumbered(id, seen.log);
    ListedBehind(id, seen.log, cursor);
    var events := EventsAfter(seen.log, cursor);
    if AnyTerminal(events) {
      var i :| 0 <= i < |events| && TerminalEvent(events[i].event);
      assert TerminalEvent(e.log[cursor + i].event);
    }
  }

  lemma FirstFollow(id: string, events: seq<RunEvent>, n: nat, cursor: nat, e: Entry)
    requires WellShaped(id, e.record, e.log) && Follow(events, cursor, e) && n < |events|
    ensures Follow(events[..n], cursor, e)
  {
    forall i | 0 <= i < n
      ensures !TerminalEvent(events[..n][i].event)
    {
      assert e.log[cursor + i] == events[..n][i];
    }
  }

  /** A round writes what stands behind the cursor, and moves the cursor behind what it wrote. */
  lemma RoundFollows(id: string, poll: Poll, cursor: nat, e: Entry)
    requires WellShaped(id, e.record, e.log) && Saw(poll, e)
    ensures var r := RoundOf(poll, cursor);
            && Follow(r.events, cursor, e)
            && (r.Goes? ==> !AnyTerminal(r.events) && r.cursor == cursor + |r.events|)
  {
    if poll.listed.Some? {
      var events := EventsAfter(poll.listed.value.log, cursor);
      ListedFollow(id, poll.listed.value, e, cursor);
      if poll.writes < |events| {
        FirstFollow(id, events, poll.writes, cursor, e);
      }
    }
  }

  lemma AnyInEither(events: seq<RunEvent>, rest: seq<RunEvent>)
    ensures AnyTerminal(events + rest) <==> AnyTerminal(events) || AnyTerminal(rest)
  {
    var all := events + rest;
    if AnyTerminal(events) {
      var i :| 0 <= i < |events| && TerminalEvent(events[i].event);
      assert all[i] == events[i];
    }
    if AnyTerminal(rest) {
      var i :| 0 <= i < |rest| && TerminalEvent(rest[i].event);
      assert all[|events| + i] == rest[i];
    }
  }

  lemma FollowOn(events: seq<RunEvent>, rest: seq<RunEvent>, cursor: nat, e: Entry)
    requires Follow(events, cursor, e) && !AnyTerminal(events) && Follow(rest, cursor + |events|, e)
    ensures Follow(events + rest, cursor, e)
  {
    AnyInEither(events, rest);
  }

  lemma {:induction false} WrittenFollow(id: string, polls: seq<Poll>, n: nat, cursor: nat, e: Entry)
    requires PollsOf(id, polls, e) && n <= |polls|
    ensures Follow(Watch(polls, n, cursor).0, cursor, e)
    decreases |polls| - n
  {
    if n < |polls| {
      RoundFollows(id, polls[n], cursor, e);
      var r := RoundOf(polls[n], cursor);
      if r.Goes? {
        WrittenFollow(id, polls, n + 1, r.cursor, e);
        FollowOn(r.events, Watch(polls, n + 1, r.cursor).0, cursor, e);
      }
    }
  }

  /**
    Whatever the store does between the polls: the ids written on a connection are the cursor's successors,
    one after the other without gap or repeat, and once a terminal event is written nothing of the run past
    the cursor is missing.
   */
  lemma NoGapNoRepeat(id: string, polls: seq<Poll>, cursor: nat, e: Entry)
    requires PollsOf(id, polls, e)
    ensures var written := Watch(polls, 0, cursor).0;
            && (written != [] ==> cursor + |written| <= |e.log|)
            && (forall i :: 0 <= i < |written| ==> written[i] == e.log[cursor + i] && written[i].sequence == cursor + 1 + i)
            && (AnyTerminal(written) ==> cursor + |written| == |e.log|)
  {
    WrittenFollow(id, polls, 0, cursor, e);
  }

  /** Events written one after the other from a cursor on. */
  predicate Consecutive(written: seq<RunEvent>, cursor: nat) {
    forall i :: 0 <= i < |written| ==> written[i].sequence == cursor + 1 + i
  }

  lemma ConsecutiveOn(first: seq<RunEvent>, second: seq<RunEvent>, cursor: nat)
    requires Consecutive(first, cursor) && Consecutive(second, cursor + |first|)
    ensures Consecutive(first + second, cursor)
  {
  }

  /** The id that a client reconnects with. */
  function LastId(written: seq<RunEvent>, after: nat): nat {
    if written == [] then after else written[|written| - 1].sequence
  }

  lemma OneConnection(id: string, polls: seq<Poll>, after: nat, e: Entry)
    requires PollsOf(id, polls, e)
    ensures var written := Watch(polls, 0, after).0;
            && Consecutive(written, after) && LastId(written, after) == after + |written|
            && (AnyTerminal(written) ==> LastId(written, after) == |e.log|)
  {
    NoGapNoRepeat(id, polls, after, e);
  }

  /** Reconnecting with the last id written goes on where the first connection stopped. */
  lemma Reconnecting(id: string, first: seq<Poll>, second: seq<Poll>, after: nat, e: Entry)
    requires PollsOf(id, first, e) && PollsOf(id, second, e)
    ensures var written := Watch(first, 0, after).0;
            var again := Watch(second, 0, LastId(written, after)).0;
            && Consecutive(written + again, after)
            && (AnyTerminal(again) ==> after + |written + again| == |e.log|)
  {
    var written := Watch(first, 0, after).0;
    OneConnection(id, first, after, e);
    OneConnection(id, second, LastId(written, after), e);
    ConsecutiveOn(written, Watch(second, 0, LastId(written, after)).0, after);
  }

  lemma RoundDelivers(id: string, poll: Poll, cursor: nat, e: Entry)
    requires WellShaped(id, e.record, e.log) && Saw(poll, e)
    ensures var r := RoundOf(poll, cursor);
            && (AnyTerminal(r.events) ==> r.Stops? && r.end == Closed)
            && (r.Goes? || r.end == Closed ==> poll.listed.Some? && |poll.listed.value.log| <= cursor + |r.events|)
  {
    RoundFollows(id, poll, cursor, e);
    if poll.listed.Some? {
      var events := EventsAfter(poll.listed.value.log, cursor);
      ListedFollow(id, poll.listed.value, e, cursor);
      if poll.writes < |events| {
        FirstFollow(id, events, poll.writes, cursor, e);
      }
    }
  }

  /**
    A connection that no read or write breaks holds nothing back: whatever its polls listed is written, and once a
    terminal event is written the server closes the stream.
   */
  lemma {:induction false} NothingHeldBack(id: string, polls: seq<Poll>, n: nat, cursor: nat, e: Entry)
    requires PollsOf(id, polls, e) && n <= |polls|
    ensures var (written, end) := Watch(polls, n, cursor);
            && (AnyTerminal(written) ==> end == Closed)
            && (end == StillOpen ==>
                  forall k :: n <= k < |polls| ==> polls[k].listed.Some? && |polls[k].listed.value.log| <= cursor + |written|)
    decreases |polls| - n
  {
    if n < |polls| {
      RoundDelivers(id, polls[n], cursor, e);
      RoundFollows(id, polls[n], cursor, e);
      var r := RoundOf(polls[n], cursor);
      if r.Goes? {
        NothingHeldBack(id, polls, n + 1, r.cursor, e);
        AnyInEither(r.events, Watch(polls, n + 1, r.cursor).0);
      }
    }
  }

  // Closed streams

  /** The poll at which the server closed the stream. */
  function Closing(polls: seq<Poll>, n: nat, cursor: nat): Poll
    requires n <= |polls| && Watch(polls, n, cursor).1 == Closed
    decreases |polls| - n
  {
    match RoundOf(polls[n], cursor)
    case Stops(_, _) => polls[n]
    case Goes(_, next) => Closing(polls, n + 1, next)
  }

  /** Whoever sees the run finished sees all of it. */
  ghost predicate SeenFinished(poll: Poll, e: Entry) {
    poll.checked.Some? && IsTerminal(poll.checked.value.record.status) ==> poll.checked.value == e
  }

  /** The run had not grown when its status was checked. */
  predicate NotOvertaken(poll: Poll) {
    && poll.listed.Some? && poll.checked.Some?
    && IsTerminal(poll.checked.value.record.status)
    && |poll.checked.value.log| == |poll.listed.value.log|
  }

  lemma ClosingRound(id: string, poll: Poll, cursor: nat, e: Entry)
    requires WellShaped(id, e.record, e.log) && Saw(poll, e) && SeenFinished(poll, e)
    requires RoundOf(poll, cursor).Stops? && RoundOf(poll, cursor).end == Closed
    ensures var events := RoundOf(poll, cursor).events;
            cursor + |events| >= |e.log| <==> AnyTerminal(events) || NotOvertaken(poll) || |e.log| <= cursor
  {
    ListedFollow(id, poll.listed.value, e, cursor);
  }

  /** A round that goes on leaves the end of a finished run to come. */
  lemma GoingRound(id: string, poll: Poll, cursor: nat, e: Entry)
    requires WellShaped(id, e.record, e.log) && IsTerminal(e.record.status) && Saw(poll, e) && RoundOf(poll, cursor).Goes?
    ensures var r := RoundOf(poll, cursor);
            r.events != [] ==> r.cursor < |e.log|
  {
    RoundFollows(id, poll, cursor, e);
  }

  /** A closed stream was closed on a finished run. */
  lemma {:induction false} ClosedIsFinished(id: string, polls: seq<Poll>, n: nat, cursor: nat, e: Entry)
    requires PollsOf(id, polls, e) && (forall k :: 0 <= k < |polls| ==> SeenFinished(polls[k], e))
    requires n <= |polls| && Watch(polls, n, cursor).1 == Closed
    ensures IsTerminal(e.record.status)
    decreases |polls| - n
  {
    RoundFollows(id, polls[n], cursor, e);
    var r := RoundOf(polls[n], cursor);
    if r.Goes? {
      ClosedIsFinished(id, polls, n + 1, r.cursor, e);
    } else if AnyTerminal(r.events) {
      var i :| 0 <= i < |r.events| && TerminalEvent(r.events[i].event);
      assert e.log[cursor + i] == r.events[i];
    }
  }

  /**
    A closed stream need not have delivered the whole run. It has, from whatever cursor, exactly when a terminal event
    was written, or the run did not grow between the listing and the check that closed the stream, or nothing was
    left behind the cursor to begin with.
   */
  lemma {:induction false} ClosedDelivers(id: string, polls: seq<Poll>, n: nat, cursor: nat, e: Entry)
    requires PollsOf(id, polls, e) && (forall k :: 0 <= k < |polls| ==> SeenFinished(polls[k], e))
    requires n <= |polls| && Watch(polls, n, cursor).1 == Closed
    ensures var written := Watch(polls, n, cursor).0;
            cursor + |written| >= |e.log| <==> AnyTerminal(written) || NotOvertaken(Closing(polls, n, cursor)) || |e.log| <= cursor
    decreases |polls| - n
  {
    RoundFollows(id, polls[n], cursor, e);
    ClosedIsFinished(id, polls, n, cursor, e);
    var r := RoundOf(polls[n], cursor);
    if r.Goes? {
      GoingRound(id, polls[n], cursor, e);
      ClosedDelivers(id, polls, n + 1, r.cursor, e);
      AnyInEither(r.events, Watch(polls, n + 1, r.cursor).0);
    } else {
      ClosingRound(id, polls[n], cursor, e);
    }
  }

  // Streams over a run of the system

  /** What polls see are states of the run up to the k-th. */
  ghost predicate Observed(states: seq<System>, k: nat, id: string, seen: Option<Entry>)
    requires k < |states|
  {
    seen.Some? ==> exists i :: 0 <= i <= k && id in states[i].repo.runs && states[i].repo.runs[id] == seen.value
  }

  lemma ObservedSeen(limits: Limits, states: seq<System>, labels: seq<Label>, k: nat, id: string, seen: Option<Entry>)
    requires Behaves(limits, states, labels) && k < |states| && id in states[k].repo.runs
    requires Observed(states, k, id, seen) && seen.Some?
    ensures seen.value.log <= states[k].repo.runs[id].log
    ensures IsTerminal(seen.value.record.status) ==> seen.value == states[k].repo.runs[id]
  {
    var i :| 0 <= i <= k && id in states[i].repo.runs && states[i].repo.runs[id] == seen.value;
    RunsGrow(limits, states, labels, i, k, id);
  }

  /** With any number of workers writing meanwhile, polls see what the theorems above ask for. */
  lemma SystemPolls(limits: Limits, states: seq<System>, labels: seq<Label>, k: nat, id: string, polls: seq<Poll>)
    requires Behaves(limits, states, labels) && k < |states| && id in states[k].repo.runs
    requires forall n :: 0 <= n < |polls| ==> Observed(states, k, id, polls[n].listed) && Observed(states, k, id, polls[n].checked)
    ensures PollsOf(id, polls, states[k].repo.runs[id])
    ensures forall n :: 0 <= n < |polls| ==> SeenFinished(polls[n], states[k].repo.runs[id])
  {
    var e := states[k].repo.runs[id];
    LogShape(limits, states, labels, k, id);
    forall n | 0 <= n < |polls|
      ensures Saw(polls[n], e) && SeenFinished(polls[n], e)
    {
      if polls[n].listed.Some? {
        ObservedSeen(limits, states, labels, k, id, polls[n].listed);
      }
      if polls[n].checked.Some? {
        ObservedSeen(limits, states, labels, k, id, polls[n].checked);
      }
    }
  }

  /**
    Whatever call finishes a run, there is a run of the system and a connection that misses its terminal event: the
    events are listed before the run finishes and its status is checked afterwards, and the stream is closed.
   */
  lemma ClosedMayMiss(env: Env, request: RunRequest) returns (states: seq<System>, labels: seq<Label>, polls: seq<Poll>, cursor: nat)
    requires Uninterrupted(env)
    ensures Behaves(env.limits, states, labels)
    ensures var id, k := request.runId, |labels|;
            && id in states[k].repo.runs
            && (forall n :: 0 <= n < |polls| ==> Observed(states, k, id, polls[n].listed) && Observed(states, k, id, polls[n].checked))
            && Watch(polls, 0, cursor) == ([], Closed)
            && cursor < |states[k].repo.runs[id].log|
  {
    var i;
    states, labels, i := RunsToEnd(env, request);
    var before, after := states[i].repo.runs[request.runId], states[|labels|].repo.runs[request.runId];
    cursor := |before.log|;
    polls := [Poll(Some(before), 0, Some(after))];
    LogShape(env.limits, states, labels, i, request.runId);
    ListedBehind(request.runId, before.log, cursor);
    assert before.log[cursor..] == [];
    assert Watch(polls, 0, cursor) == ([], Closed);
  }
}
