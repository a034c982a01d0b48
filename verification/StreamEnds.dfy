/**
  How a completion stream ends and what text it puts out, told from what it brings: the first fault decides a
  failure, and a stream without one ends well if and only if something finished it.
 */
module StreamEnds {
  import opened Domain
  import opened Engine
  import opened StreamAssembly

  /** A place where reading stops with a failure. */
  ghost predicate Faulty(atoms: seq<Atom>, k: nat)
    requires k < |atoms|
  {
    || atoms[k].Bad?
    || (atoms[k].Ending? && atoms[k].finish.CutShort?)
    || (atoms[k] == Ending(ToolCallsFinish) && !HasCalls(FragmentsIn(atoms[..k])))
  }

  ghost predicate Fine(atoms: seq<Atom>, k: nat)
    requires k < |atoms|
  {
    !atoms[k].End? && !Faulty(atoms, k)
  }

  ghost predicate Faultless(atoms: seq<Atom>) {
    forall k :: 0 <= k < |atoms| ==> Fine(atoms, k)
  }

  ghost predicate Asked(atoms: seq<Atom>) {
    exists k :: 0 <= k < |atoms| && atoms[k] == Ending(ToolCallsFinish)
  }

  ghost predicate Finished(atoms: seq<Atom>) {
    exists k :: 0 <= k < |atoms| && (atoms[k] == Ending(ToolCallsFinish) || atoms[k] == Ending(StopFinish))
  }

  /** The text pieces a stream brings, and those that are put out. */
  function Texts(atoms: seq<Atom>): seq<string> {
    if atoms == [] then []
    else Texts(atoms[..|atoms| - 1]) + if atoms[|atoms| - 1].Text? then [atoms[|atoms| - 1].content] else []
  }

  function DeltasIn(events: seq<ModelEvent>): seq<string> {
    if events == [] then []
    else DeltasIn(events[..|events| - 1]) + if events[|events| - 1].TextDelta? then [events[|events| - 1].delta] else []
  }

  function Stops(atoms: seq<Atom>): nat {
    if atoms == [] then 0
    else Stops(atoms[..|atoms| - 1]) + if atoms[|atoms| - 1] == Ending(StopFinish) then 1 else 0
  }

  function Completions(events: seq<ModelEvent>): nat {
    if events == [] then 0
    else Completions(events[..|events| - 1]) + if events[|events| - 1].Completed? then 1 else 0
  }

  lemma EventAdded(events: seq<ModelEvent>, event: ModelEvent)
    ensures DeltasIn(events + [event]) == DeltasIn(events) + if event.TextDelta? then [event.delta] else []
    ensures Completions(events + [event]) == Completions(events) + if event.Completed? then 1 else 0
  {
    assert (events + [event])[..|events|] == events;
  }

  lemma {:induction false} CallsSayNothing(a: seq<ModelEvent>, b: seq<ModelEvent>)
    requires forall i :: 0 <= i < |b| ==> b[i].CallReady?
    ensures DeltasIn(a + b) == DeltasIn(a) && Completions(a + b) == Completions(a)
  {
    if b == [] {
      assert a + b == a;
    } else {
      CallsSayNothing(a, b[..|b| - 1]);
      assert (a + b)[..|a + b| - 1] == a + b[..|b| - 1];
    }
  }

  lemma EmittedSaysNothing(a: Assembly)
    ensures var events := a.events + Emission(a.builders, 0);
            DeltasIn(events) == DeltasIn(a.events) && Completions(events) == Completions(a.events)
  {
    var calls := Emission(a.builders, 0);
    forall i | 0 <= i < |calls|
      ensures calls[i].CallReady?
    {
      EmissionAt(a.builders, 0, i);
    }
    CallsSayNothing(a.events, calls);
  }

  lemma FeedSays(a: Assembly, atom: Atom, prices: Prices)
    ensures var events := EventsOf(Feed(Going(a), atom, prices));
            && DeltasIn(events) == DeltasIn(a.events) + (if atom.Text? then [atom.content] else [])
            && Completions(events) == Completions(a.events) + (if atom == Ending(StopFinish) then 1 else 0)
  {
    match atom
    case Spent(tokens) => EventAdded(a.events, UsageReport(UsageOf(tokens, prices)));
    case Text(content) => EventAdded(a.events, TextDelta(content));
    case Ending(finish) =>
      if finish.ToolCallsFinish? {
        EmittedSaysNothing(a);
      } else if finish.StopFinish? {
        EventAdded(a.events, Completed(a.text));
      }
    case Piece(_) =>
    case Bad(_) =>
    case End =>
  }

  /** What reading has come to after a faultless stream. */
  ghost predicate Reads(s: State, atoms: seq<Atom>) {
    && s.Going?
    && (s.a.completed <==> Finishes(atoms) + Stops(atoms) > 0)
    && (s.a.emitted <==> Finishes(atoms) > 0)
    && s.a.builders == BuildersOf(FragmentsIn(atoms))
    && DeltasIn(s.a.events) == Texts(atoms)
    && Completions(s.a.events) == Stops(atoms)
  }

  /** Counting finishes tells whether there are any. */
  lemma {:induction false} Counted(atoms: seq<Atom>)
    ensures Asked(atoms) <==> Finishes(atoms) > 0
    ensures Finished(atoms) <==> Finishes(atoms) + Stops(atoms) > 0
  {
    if atoms != [] {
      var before, last := atoms[..|atoms| - 1], atoms[|atoms| - 1];
      Counted(before);
      if Asked(before) {
        var k :| 0 <= k < |before| && before[k] == Ending(ToolCallsFinish);
        assert atoms[k] == before[k];
      }
      if Finished(before) {
        var k :| 0 <= k < |before| && (before[k] == Ending(ToolCallsFinish) || before[k] == Ending(StopFinish));
        assert atoms[k] == before[k];
      }
    }
  }

  lemma CountsAdd(before: seq<Atom>, atom: Atom)
    ensures Texts(before + [atom]) == Texts(before) + if atom.Text? then [atom.content] else []
    ensures Stops(before + [atom]) == Stops(before) + if atom == Ending(StopFinish) then 1 else 0
    ensures Finishes(before + [atom]) == Finishes(before) + if atom == Ending(ToolCallsFinish) then 1 else 0
  {
    assert (before + [atom])[..|before|] == before;
  }

  lemma FaultlessAdd(before: seq<Atom>, atom: Atom)
    ensures Faultless(before + [atom]) <==> Faultless(before) && Fine(before + [atom], |before|)
  {
    var atoms := before + [atom];
    forall k | 0 <= k < |before|
      ensures Fine(atoms, k) <==> Fine(before, k)
    {
      assert atoms[k] == before[k] && atoms[..k] == before[..k];
    }
    if Faultless(before) && Fine(atoms, |before|) {
      forall k | 0 <= k < |atoms|
        ensures Fine(atoms, k)
      {
        assert k < |before| ==> Fine(before, k);
      }
    }
  }

  /** What the next item makes of a state, and whether it is fine. */
  lemma NextFinish(s: State, before: seq<Atom>, prices: Prices)
    requires Reads(s, before)
    ensures var atom := Ending(ToolCallsFinish);
            if HasCalls(FragmentsIn(before)) then Reads(Feed(s, atom, prices), before + [atom]) else !Feed(s, atom, prices).Going?
  {
    CountsAdd(before, Ending(ToolCallsFinish));
    FragmentsAdd(before, Ending(ToolCallsFinish));
    FeedSays(s.a, Ending(ToolCallsFinish), prices);
    BuildersOfBuilds(FragmentsIn(before));
    EmissionDecided(s.a, FragmentsIn(before));
  }

  lemma NextPiece(s: State, before: seq<Atom>, fragment: Fragment, prices: Prices)
    requires Reads(s, before)
    ensures Reads(Feed(s, Piece(fragment), prices), before + [Piece(fragment)])
  {
    CountsAdd(before, Piece(fragment));
    FragmentsAdd(before, Piece(fragment));
    FeedSays(s.a, Piece(fragment), prices);
    assert (FragmentsIn(before) + [fragment])[..|FragmentsIn(before)|] == FragmentsIn(before);
  }

  predicate Ends(atom: Atom) {
    atom.End? || atom.Bad? || (atom.Ending? && atom.finish.CutShort?)
  }

  lemma FeedOther(a: Assembly, atom: Atom, prices: Prices)
    requires !atom.Piece? && atom != Ending(ToolCallsFinish)
    ensures var s := Feed(Going(a), atom, prices);
            && (s.Going? <==> !Ends(atom))
            && (s.Going? ==>
                  && s.a.builders == a.builders && s.a.emitted == a.emitted
                  && s.a.completed == (a.completed || atom == Ending(StopFinish)))
  {
  }

  lemma NextOther(s: State, before: seq<Atom>, atom: Atom, prices: Prices)
    requires Reads(s, before) && !atom.Piece? && atom != Ending(ToolCallsFinish)
    ensures if Ends(atom) then !Feed(s, atom, prices).Going? else Reads(Feed(s, atom, prices), before + [atom])
  {
    FeedOther(s.a, atom, prices);
    if !Ends(atom) {
      FragmentsAdd(before, atom);
      FeedSays(s.a, atom, prices);
      CountsAdd(before, atom);
    }
  }

  lemma NextAtom(s: State, before: seq<Atom>, atom: Atom, prices: Prices)
    requires Reads(s, before)
    ensures if Fine(before + [atom], |before|) then Reads(Feed(s, atom, prices), before + [atom]) else !Feed(s, atom, prices).Going?
  {
    var atoms := before + [atom];
    assert atoms[..|before|] == before && atoms[|before|] == atom;
    if atom.Piece? {
      NextPiece(s, before, atom.fragment, prices);
    } else if atom == Ending(ToolCallsFinish) {
      NextFinish(s, before, prices);
    } else {
      NextOther(s, before, atom, prices);
    }
  }

  /** Reading goes on exactly while there is no fault and no end mark. */
  lemma {:induction false} GoesOnWhileFaultless(atoms: seq<Atom>, prices: Prices)
    ensures Process(Going(START), atoms, prices).Going? <==> Faultless(atoms)
    ensures Faultless(atoms) ==> Reads(Process(Going(START), atoms, prices), atoms)
  {
    if atoms != [] {
      var before, last := atoms[..|atoms| - 1], atoms[|atoms| - 1];
      assert atoms == before + [last];
      GoesOnWhileFaultless(before, prices);
      FaultlessAdd(before, last);
      if Faultless(before) {
        NextAtom(Process(Going(START), before, prices), before, last, prices);
      }
    }
  }

  /** The first n items are what is read: up to the end mark, or all. */
  predicate ReadUpTo(atoms: seq<Atom>, n: nat) {
    n <= |atoms| && (forall k :: 0 <= k < n ==> !atoms[k].End?) && (n < |atoms| ==> atoms[n].End?)
  }

  lemma OutcomeOfHeard(atoms: seq<Atom>, n: nat, prices: Prices)
    requires ReadUpTo(atoms, n)
    ensures Outcome(Process(Going(START), atoms, prices)) == Outcome(Process(Going(START), atoms[..n], prices))
  {
    var heard := atoms[..n];
    if n < |atoms| {
      assert atoms == heard + [atoms[n]] + atoms[n + 1..];
      ProcessAdd(Going(START), heard + [atoms[n]], atoms[n + 1..], prices);
      assert (heard + [atoms[n]])[..n] == heard;
      OnceStopped(Process(Going(START), heard + [atoms[n]], prices), atoms[n + 1..], prices);
      NeverOver(heard, prices);
    } else {
      assert heard == atoms;
    }
  }

  lemma {:induction false} NeverOver(atoms: seq<Atom>, prices: Prices)
    requires forall k :: 0 <= k < |atoms| ==> !atoms[k].End?
    ensures !Process(Going(START), atoms, prices).Over?
  {
    if atoms != [] {
      NeverOver(atoms[..|atoms| - 1], prices);
    }
  }

  lemma EndsOfReading(s: State, atoms: seq<Atom>)
    requires Reads(s, atoms)
    ensures Outcome(s).1.None? <==>
            if Asked(atoms) || FragmentsIn(atoms) == [] then Finished(atoms) else HasCalls(FragmentsIn(atoms))
    ensures DeltasIn(Outcome(s).0) == Texts(atoms) && Completions(Outcome(s).0) == Stops(atoms)
  {
    var fragments := FragmentsIn(atoms);
    Counted(atoms);
    BuildersOfBuilds(fragments);
    EmissionDecided(s.a, fragments);
    EmittedSaysNothing(s.a);
    if fragments != [] {
      SomeBuilders(fragments);
    }
  }

  /**
    A stream ends well if and only if nothing in it, up to its end mark, is a fault, and a finish completed it, or it
    has tool calls that nobody asked for and that are complete. It has then put out its text piece by piece, and one
    completed output for each finish that says stop.
   */
  lemma EndsWell(atoms: seq<Atom>, n: nat, prices: Prices)
    requires ReadUpTo(atoms, n)
    ensures var (events, failure) := Outcome(Process(Going(START), atoms, prices));
            var heard := atoms[..n];
            && (failure.None? <==>
                  && (forall k :: 0 <= k < n ==> !Faulty(heard, k))
                  && (if Asked(heard) || FragmentsIn(heard) == [] then Finished(heard) else HasCalls(FragmentsIn(heard))))
            && (failure.None? ==> DeltasIn(events) == Texts(heard) && Completions(events) == Stops(heard))
  {
    var heard := atoms[..n];
    OutcomeOfHeard(atoms, n, prices);
    GoesOnWhileFaultless(heard, prices);
    assert forall k :: 0 <= k < n ==> (Fine(heard, k) <==> !Faulty(heard, k));
    if Faultless(heard) {
      EndsOfReading(Process(Going(START), heard, prices), heard);
    } else {
      NeverOver(heard, prices);
    }
  }

  /** The failure of a fault, by its kind; a finish that asks too early names the first index whose call is not complete. */
  ghost predicate FailureOf(failure: StreamFailure, atoms: seq<Atom>, k: nat)
    requires k < |atoms|
  {
    match atoms[k]
    case Bad(bad) => failure == bad
    case Ending(CutShort(reason)) => failure == IncompleteResponse(reason)
    case _ =>
      var fragments := FragmentsIn(atoms[..k]);
      && failure.MissingCall?
      && FirstIncomplete(fragments, failure.index)
  }

  ghost predicate CompleteAt(fragments: seq<Fragment>, index: int) {
    At(fragments, index) != [] && LastId(At(fragments, index)) != "" && LastName(At(fragments, index)) != ""
  }

  ghost predicate FirstIncomplete(fragments: seq<Fragment>, index: nat) {
    !CompleteAt(fragments, index) && forall i :: 0 <= i < index ==> CompleteAt(fragments, i)
  }

  lemma {:induction false} ReachedComplete(builders: map<int, Builder>, index: nat, i: int)
    requires index <= i < Reached(builders, index)
    ensures Complete(builders, i)
    decreases |builders| - index
  {
    if index < i {
      ReachedComplete(builders, index + 1, i);
    }
  }

  lemma MissingIsFirst(a: Assembly, fragments: seq<Fragment>)
    requires Builds(a.builders, fragments) && Emitted(a).Halted?
    ensures Emitted(a).failure.MissingCall? && FirstIncomplete(fragments, Emitted(a).failure.index)
  {
    EmissionReaches(a.builders, 0);
    var index := Reached(a.builders, 0);
    forall i | 0 <= i < index
      ensures CompleteAt(fragments, i)
    {
      ReachedComplete(a.builders, 0, i);
    }
  }

  lemma FaultFed(s: State, before: seq<Atom>, atoms: seq<Atom>, k: nat, prices: Prices)
    requires k < |atoms| && before == atoms[..k] && Reads(s, before) && Faulty(atoms, k)
    ensures var s' := Feed(s, atoms[k], prices);
            s'.Halted? && FailureOf(s'.failure, atoms, k) && DeltasIn(s'.events) == Texts(before)
  {
    FeedSays(s.a, atoms[k], prices);
    if atoms[k] == Ending(ToolCallsFinish) {
      BuildersOfBuilds(FragmentsIn(before));
      EmissionDecided(s.a, FragmentsIn(before));
      MissingIsFirst(s.a, FragmentsIn(before));
    }
  }

  lemma StoppedAt(atoms: seq<Atom>, k: nat, prices: Prices)
    requires k < |atoms| && !Feed(Process(Going(START), atoms[..k], prices), atoms[k], prices).Going?
    ensures Process(Going(START), atoms, prices) == Feed(Process(Going(START), atoms[..k], prices), atoms[k], prices)
  {
    var upTo, rest := atoms[..k] + [atoms[k]], atoms[k + 1..];
    assert upTo[..|upTo| - 1] == atoms[..k] && atoms == upTo + rest;
    ProcessAdd(Going(START), upTo, rest, prices);
    OnceStopped(Process(Going(START), upTo, prices), rest, prices);
  }

  /** The first fault decides: reading stops there with its failure and with the text that came before. */
  lemma FirstFault(atoms: seq<Atom>, k: nat, prices: Prices)
    requires k < |atoms| && Faultless(atoms[..k]) && Faulty(atoms, k)
    ensures var (events, failure) := Outcome(Process(Going(START), atoms, prices));
            failure.Some? && FailureOf(failure.value, atoms, k) && DeltasIn(events) == Texts(atoms[..k])
  {
    GoesOnWhileFaultless(atoms[..k], prices);
    FaultFed(Process(Going(START), atoms[..k], prices), atoms[..k], atoms, k, prices);
    StoppedAt(atoms, k, prices);
  }
}
