/**
  A log that several attempts wrote one after the other, each a piece of one and the same call: piece by piece
  it holds the outputs of that call in their order.
 */
module Pieces {
  import opened Domain
  import opened Engine
  import opened UsageReplay
  import opened Store
  import opened Workers
  import opened WorkersInvariant

  function ContentOf(a: Action): (EventType, Payload)
    requires a.Emit?
  {
    (a.event, a.payload)
  }

  /** The same event with this much more in its usage total, if it has one. */
  function Recounted(x: (EventType, Payload), extra: Usage): (EventType, Payload) {
    (x.0, if x.1.UsagePayload? then x.1.(total := Plus(x.1.total, extra)) else x.1)
  }

  /** What the actions from one index to another put into a log. */
  function Spell(whole: seq<Action>, from: nat, to: nat, extra: Usage): seq<(EventType, Payload)>
    requires from <= to <= |whole|
  {
    if from == to then []
    else Spell(whole, from, to - 1, extra) + if Logs(whole[to - 1]) then [Recounted(ContentOf(whole[to - 1]), extra)] else []
  }

  lemma {:induction false} SentIsSpell(whole: seq<Action>, start: nat, extra: Usage, trace: seq<Action>, n: nat)
    requires start <= |whole| && trace == Shift(whole[start..], extra) && n <= |trace|
    ensures Sent(trace, n) == Spell(whole, start, start + n, extra)
  {
    if n > 0 {
      SentIsSpell(whole, start, extra, trace, n - 1);
      assert trace[n - 1] == ShiftAction(whole[start + n - 1], extra);
    }
  }

  /** The place of an output in what it is spelled into. */
  lemma {:induction false} SpellAt(whole: seq<Action>, from: nat, to: nat, extra: Usage, j: nat)
    requires from <= j < to <= |whole| && Logs(whole[j])
    ensures |Spell(whole, from, j, extra)| < |Spell(whole, from, to, extra)|
    ensures Spell(whole, from, to, extra)[|Spell(whole, from, j, extra)|] == Recounted(ContentOf(whole[j]), extra)
  {
    if j < to - 1 {
      SpellAt(whole, from, to - 1, extra, j);
    }
  }

  lemma {:induction false} SpellFrom(whole: seq<Action>, from: nat, to: nat, extra: Usage, q: nat) returns (j: nat)
    requires from <= to <= |whole| && q < |Spell(whole, from, to, extra)|
    ensures from <= j < to && Logs(whole[j]) && Spell(whole, from, to, extra)[q] == Recounted(ContentOf(whole[j]), extra)
  {
    if q < |Spell(whole, from, to - 1, extra)| {
      j := SpellFrom(whole, from, to - 1, extra, q);
    } else {
      j := to - 1;
    }
  }

  // A log in the order of its writers

  ghost predicate Sorted(writers: seq<nat>) {
    && 1 <= |writers| && writers[0] == 0
    && (forall p :: 1 <= p < |writers| ==> 1 <= writers[p])
    && (forall p, q :: 0 <= p < q < |writers| ==> writers[p] <= writers[q])
  }

  /** What a log holds behind its first event. */
  function Contents(log: seq<RunEvent>): seq<(EventType, Payload)>
    requires 1 <= |log|
  {
    seq(|log| - 1, p requires 0 <= p < |log| - 1 => (log[p + 1].event, log[p + 1].payload))
  }

  /** The parts of the first n fences. */
  function Parts(log: seq<RunEvent>, writers: seq<nat>, n: nat): seq<(EventType, Payload)>
    requires |log| == |writers|
  {
    if n == 0 then [] else Parts(log, writers, n - 1) + Part(log, writers, n)
  }

  lemma {:induction false} PartsGrow(log: seq<RunEvent>, writers: seq<nat>, event: RunEvent, writer: nat, n: nat)
    requires |log| == |writers| && 1 <= writer && forall p :: 0 <= p < |writers| ==> writers[p] <= writer
    ensures Parts(log + [event], writers + [writer], n) ==
            Parts(log, writers, n) + if writer <= n then [(event.event, event.payload)] else []
  {
    if n > 0 {
      PartsGrow(log, writers, event, writer, n - 1);
      PartGrows(log, writers, event, writer, n);
      if writer < n {
        PartEmpty(log, writers, n);
      }
    }
  }

  lemma {:induction false} PartsOfOne(log: seq<RunEvent>, writers: seq<nat>, n: nat)
    requires |log| == |writers| == 1 && writers[0] == 0
    ensures Parts(log, writers, n) == []
  {
    if n > 0 {
      PartsOfOne(log, writers, n - 1);
      PartEmpty(log, writers, n);
    }
  }

  /** In a log written fence after fence the parts of the first n fences are its beginning. */
  lemma {:induction false} PartsAre(log: seq<RunEvent>, writers: seq<nat>, n: nat)
    requires |log| == |writers| && Sorted(writers)
    ensures |Parts(log, writers, n)| <= |log| - 1
    ensures Parts(log, writers, n) == Contents(log)[..|Parts(log, writers, n)|]
    ensures forall p :: 1 <= p < |log| ==> (writers[p] <= n <==> p <= |Parts(log, writers, n)|)
  {
    if |log| == 1 {
      PartsOfOne(log, writers, n);
    } else {
      var m := |log| - 1;
      PartsAre(log[..m], writers[..m], n);
      PartsGrow(log[..m], writers[..m], log[m], writers[m], n);
      assert log[..m] + [log[m]] == log && writers[..m] + [writers[m]] == writers;
      ContentsGrow(log[..m], log[m]);
      AllOrSome(log[..m], writers[..m], n, writers[m]);
    }
  }

  lemma ContentsGrow(log: seq<RunEvent>, event: RunEvent)
    requires 1 <= |log|
    ensures Contents(log + [event]) == Contents(log) + [(event.event, event.payload)]
  {
  }

  /** A fence no less than all before has them all in the parts up to it. */
  lemma AllOrSome(log: seq<RunEvent>, writers: seq<nat>, n: nat, writer: nat)
    requires |log| == |writers| && Sorted(writers) && forall p :: 0 <= p < |writers| ==> writers[p] <= writer
    requires |Parts(log, writers, n)| <= |log| - 1
    requires forall p :: 1 <= p < |log| ==> (writers[p] <= n <==> p <= |Parts(log, writers, n)|)
    ensures writer <= n ==> |Parts(log, writers, n)| == |log| - 1
  {
    if writer <= n && |log| > 1 {
      assert writers[|log| - 1] <= n;
    }
  }

  // Pieces of a call

  /** A stretch of a call, logged with so much more in its usage totals. */
  datatype Piece = Piece(from: nat, to: nat, extra: Usage)

  const NOTHING := Piece(0, 0, NO_USAGE)

  /** The furthest point of the call that the first n pieces reach. */
  function Furthest(pieces: seq<Piece>, n: nat): nat
    requires n <= |pieces|
  {
    if n == 0 then 0
    else if pieces[n - 1].to > Furthest(pieces, n - 1) then pieces[n - 1].to else Furthest(pieces, n - 1)
  }

  lemma {:induction false} FurthestCovers(pieces: seq<Piece>, n: nat, m: nat)
    requires n < m <= |pieces|
    ensures pieces[n].to <= Furthest(pieces, m)
  {
    if n < m - 1 {
      FurthestCovers(pieces, n, m - 1);
    }
  }

  /** The n-th piece is what the fence n + 1 logged, and starts no later than the furthest point reached before. */
  ghost predicate PieceOk(whole: seq<Action>, log: seq<RunEvent>, writers: seq<nat>, pieces: seq<Piece>, n: nat)
    requires n < |pieces| && |log| == |writers|
  {
    && pieces[n].from <= pieces[n].to <= |whole|
    && pieces[n].from <= Furthest(pieces, n)
    && Part(log, writers, n + 1) == Spell(whole, pieces[n].from, pieces[n].to, pieces[n].extra)
  }

  ghost predicate InPieces(whole: seq<Action>, log: seq<RunEvent>, writers: seq<nat>, pieces: seq<Piece>) {
    && |log| == |writers| && Sorted(writers)
    && (forall p :: 1 <= p < |log| ==> writers[p] <= |pieces|)
    && (forall n :: 0 <= n < |pieces| ==> PieceOk(whole, log, writers, pieces, n))
  }

  function Spelled(whole: seq<Action>, pieces: seq<Piece>, n: nat): seq<(EventType, Payload)>
    requires n <= |pieces| && forall m :: 0 <= m < n ==> pieces[m].from <= pieces[m].to <= |whole|
  {
    if n == 0 then []
    else Spelled(whole, pieces, n - 1) + Spell(whole, pieces[n - 1].from, pieces[n - 1].to, pieces[n - 1].extra)
  }

  lemma PiecesDefined(whole: seq<Action>, log: seq<RunEvent>, writers: seq<nat>, pieces: seq<Piece>)
    requires InPieces(whole, log, writers, pieces)
    ensures forall m :: 0 <= m < |pieces| ==> pieces[m].from <= pieces[m].to <= |whole|
  {
    forall m | 0 <= m < |pieces|
      ensures pieces[m].from <= pieces[m].to <= |whole|
    {
      assert PieceOk(whole, log, writers, pieces, m);
    }
  }

  lemma {:induction false} PartsAreSpelled(whole: seq<Action>, log: seq<RunEvent>, writers: seq<nat>, pieces: seq<Piece>, n: nat)
    requires InPieces(whole, log, writers, pieces) && n <= |pieces|
    requires forall m :: 0 <= m < |pieces| ==> pieces[m].from <= pieces[m].to <= |whole|
    ensures Parts(log, writers, n) == Spelled(whole, pieces, n)
  {
    if n > 0 {
      PartsAreSpelled(whole, log, writers, pieces, n - 1);
      assert PieceOk(whole, log, writers, pieces, n - 1);
    }
  }

  /** Behind its first event the log is its pieces, one after the other. */
  lemma LogIsSpelled(whole: seq<Action>, log: seq<RunEvent>, writers: seq<nat>, pieces: seq<Piece>)
    requires InPieces(whole, log, writers, pieces)
    ensures forall m :: 0 <= m < |pieces| ==> pieces[m].from <= pieces[m].to <= |whole|
    ensures Contents(log) == Spelled(whole, pieces, |pieces|)
  {
    PiecesDefined(whole, log, writers, pieces);
    PartsAreSpelled(whole, log, writers, pieces, |pieces|);
    PartsAre(log, writers, |pieces|);
    if |log| > 1 {
      assert writers[|log| - 1] <= |pieces|;
    }
  }

  // Positions in the log

  /** An event of the log is an output of the call, recounted by the usage of the piece it lies in. */
  predicate IsOutput(whole: seq<Action>, log: seq<RunEvent>, writers: seq<nat>, pieces: seq<Piece>, p: nat, j: nat) {
    && 1 <= p < |log| == |writers| && 1 <= writers[p] <= |pieces|
    && j < |whole| && Logs(whole[j])
    && (log[p].event, log[p].payload) == Recounted(ContentOf(whole[j]), pieces[writers[p] - 1].extra)
  }

  lemma Middle<T>(all: seq<T>, before: seq<T>, part: seq<T>)
    requires |before + part| <= |all| && before + part == all[..|before + part|]
    ensures forall q :: 0 <= q < |part| ==> all[|before| + q] == part[q]
  {
    forall q | 0 <= q < |part|
      ensures all[|before| + q] == part[q]
    {
      assert (before + part)[|before| + q] == part[q];
    }
  }

  /** The part of a fence stands in the log behind the parts of all fences before it. */
  lemma PartPlace(log: seq<RunEvent>, writers: seq<nat>, n: nat) returns (before: seq<(EventType, Payload)>, part: seq<(EventType, Payload)>)
    requires |log| == |writers| && Sorted(writers)
    ensures before == Parts(log, writers, n) && part == Part(log, writers, n + 1) && |before| + |part| < |log|
    ensures forall q :: 0 <= q < |part| ==> Contents(log)[|before| + q] == part[q]
    ensures forall p :: 1 <= p < |log| ==> (writers[p] == n + 1 <==> |before| < p <= |before| + |part|)
  {
    PartsAre(log, writers, n);
    PartsAre(log, writers, n + 1);
    before, part := Parts(log, writers, n), Part(log, writers, n + 1);
    Middle(Contents(log), before, part);
  }

  lemma PartAt(log: seq<RunEvent>, writers: seq<nat>, n: nat, q: nat)
    requires |log| == |writers| && Sorted(writers) && q < |Part(log, writers, n + 1)|
    ensures var p := |Parts(log, writers, n)| + q + 1;
            && p < |log| && writers[p] == n + 1
            && (log[p].event, log[p].payload) == Part(log, writers, n + 1)[q]
  {
    var before, part := PartPlace(log, writers, n);
    assert Contents(log)[|before| + q] == part[q];
  }

  lemma PartHolds(log: seq<RunEvent>, writers: seq<nat>, n: nat, p: nat) returns (q: nat)
    requires |log| == |writers| && Sorted(writers) && 1 <= p < |log| && writers[p] == n + 1
    ensures q < |Part(log, writers, n + 1)| && Part(log, writers, n + 1)[q] == (log[p].event, log[p].payload)
  {
    var before, part := PartPlace(log, writers, n);
    q := p - 1 - |before|;
    assert Contents(log)[|before| + q] == part[q];
  }

  /** Nothing else is in the log: each event behind the first is an output in the piece of its fence. */
  lemma EventIsOutput(whole: seq<Action>, log: seq<RunEvent>, writers: seq<nat>, pieces: seq<Piece>, p: nat) returns (j: nat)
    requires InPieces(whole, log, writers, pieces) && 1 <= p < |log|
    ensures IsOutput(whole, log, writers, pieces, p, j)
    ensures pieces[writers[p] - 1].from <= j < pieces[writers[p] - 1].to
  {
    var n := writers[p] - 1;
    assert PieceOk(whole, log, writers, pieces, n);
    var q := PartHolds(log, writers, n, p);
    j := SpellFrom(whole, pieces[n].from, pieces[n].to, pieces[n].extra, q);
  }

  /** The outputs among the first m actions are in the log, in their order. */
  ghost predicate HeldInOrder(whole: seq<Action>, m: nat, log: seq<RunEvent>, writers: seq<nat>, pieces: seq<Piece>, at: seq<nat>) {
    && |at| == m <= |whole|
    && (forall j :: 0 <= j < m && Logs(whole[j]) ==> IsOutput(whole, log, writers, pieces, at[j], j))
    && (forall j, l :: 0 <= j < l < m && Logs(whole[j]) && Logs(whole[l]) ==> at[j] < at[l])
  }

  /** Where the n-th piece puts its j-th action. */
  function Position(whole: seq<Action>, log: seq<RunEvent>, writers: seq<nat>, piece: Piece, n: nat, j: nat): nat
    requires |log| == |writers| && piece.from <= j <= |whole|
  {
    |Parts(log, writers, n)| + |Spell(whole, piece.from, j, piece.extra)| + 1
  }

  lemma PieceAt(whole: seq<Action>, log: seq<RunEvent>, writers: seq<nat>, pieces: seq<Piece>, n: nat, j: nat)
    requires |log| == |writers| && Sorted(writers) && n < |pieces|
    requires PieceOk(whole, log, writers, pieces, n) && pieces[n].from <= j < pieces[n].to && Logs(whole[j])
    ensures IsOutput(whole, log, writers, pieces, Position(whole, log, writers, pieces[n], n, j), j)
    ensures Position(whole, log, writers, pieces[n], n, j) <= |Parts(log, writers, n + 1)|
  {
    var piece := pieces[n];
    SpellAt(whole, piece.from, piece.to, piece.extra, j);
    PartAt(log, writers, n, |Spell(whole, piece.from, j, piece.extra)|);
  }

  lemma PositionsAscend(whole: seq<Action>, log: seq<RunEvent>, writers: seq<nat>, piece: Piece, n: nat, j: nat, l: nat)
    requires |log| == |writers| && piece.from <= j < l <= |whole| && Logs(whole[j])
    ensures Position(whole, log, writers, piece, n, j) < Position(whole, log, writers, piece, n, l)
  {
    SpellAt(whole, piece.from, l, piece.extra, j);
  }

  /** Places for the outputs that the n-th piece adds. */
  function Added(whole: seq<Action>, log: seq<RunEvent>, writers: seq<nat>, piece: Piece, n: nat, at: seq<nat>): seq<nat>
    requires |log| == |writers| && piece.from <= |at| <= piece.to <= |whole|
  {
    seq(piece.to, j requires 0 <= j < piece.to => if j < |at| then at[j] else Position(whole, log, writers, piece, n, j))
  }

  ghost predicate Below(whole: seq<Action>, at: seq<nat>, bound: nat)
    requires |at| <= |whole|
  {
    forall j :: 0 <= j < |at| && Logs(whole[j]) ==> at[j] <= bound
  }

  lemma AddedInPlace(whole: seq<Action>, log: seq<RunEvent>, writers: seq<nat>, pieces: seq<Piece>, n: nat, at: seq<nat>)
    requires |log| == |writers| && Sorted(writers) && n < |pieces| && PieceOk(whole, log, writers, pieces, n)
    requires HeldInOrder(whole, |at|, log, writers, pieces, at) && Below(whole, at, |Parts(log, writers, n)|)
    requires pieces[n].from <= |at| <= pieces[n].to
    ensures var at' := Added(whole, log, writers, pieces[n], n, at);
            HeldInOrder(whole, pieces[n].to, log, writers, pieces, at') && Below(whole, at', |Parts(log, writers, n + 1)|)
  {
    var at' := Added(whole, log, writers, pieces[n], n, at);
    forall j | 0 <= j < |at'| && Logs(whole[j])
      ensures IsOutput(whole, log, writers, pieces, at'[j], j)
      ensures at'[j] <= |Parts(log, writers, n + 1)|
    {
      if |at| <= j {
        PieceAt(whole, log, writers, pieces, n, j);
      }
    }
    forall j, l | 0 <= j < l < |at'| && Logs(whole[j]) && Logs(whole[l])
      ensures at'[j] < at'[l]
    {
      if |at| <= j {
        PositionsAscend(whole, log, writers, pieces[n], n, j, l);
      }
    }
  }

  /** As far as the pieces reach, the outputs of the call are in the log, in their order. */
  lemma {:induction false} OutputsInOrder(whole: seq<Action>, log: seq<RunEvent>, writers: seq<nat>, pieces: seq<Piece>, n: nat)
    returns (at: seq<nat>)
    requires InPieces(whole, log, writers, pieces) && n <= |pieces|
    ensures HeldInOrder(whole, Furthest(pieces, n), log, writers, pieces, at) && Below(whole, at, |Parts(log, writers, n)|)
  {
    if n == 0 {
      at := [];
    } else {
      at := OutputsInOrder(whole, log, writers, pieces, n - 1);
      assert PieceOk(whole, log, writers, pieces, n - 1);
      if pieces[n - 1].to > |at| {
        AddedInPlace(whole, log, writers, pieces, n - 1, at);
        at := Added(whole, log, writers, pieces[n - 1], n - 1, at);
      }
    }
  }
}
