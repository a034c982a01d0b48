/** The reading loop of the adapter, line by line, choice by choice and fragment by fragment. */
module StreamReader {
  import opened Domain
  import opened Engine
  import opened StreamAssembly

  class Reader {
    const prices: Prices
    var text: string
    var builders: map<int, Builder>
    var emitted: bool
    var completed: bool
    var events: seq<ModelEvent>

    function Value(): Assembly
      reads this
    {
      Assembly(text, builders, emitted, completed, events)
    }

    constructor (prices: Prices)
      ensures Value() == START && this.prices == prices
    {
      this.prices := prices;
      text, builders, emitted, completed, events := "", map[], false, false, [];
    }

    /** Sends the calls in index order; an index without a complete call ends the stream with an error. */
    method EmitToolCalls() returns (failure: Option<StreamFailure>)
      modifies this`events
      ensures Value() == old(Value()).(events := old(events) + Emission(builders, 0))
      ensures failure == if Reached(builders, 0) < |builders| then Some(MissingCall(Reached(builders, 0))) else None
    {
      EmissionReaches(builders, 0);
      var index := 0;
      while index < |builders|
        invariant 0 <= index <= |builders|
        invariant events + Emission(builders, index) == old(events) + Emission(builders, 0)
        invariant Reached(builders, index) == Reached(builders, 0)
      {
        if !Complete(builders, index) {
          return Some(MissingCall(index));
        }
        assert events + Emission(builders, index) == events + [CallOf(builders[index])] + Emission(builders, index + 1);
        events := events + [CallOf(builders[index])];
        index := index + 1;
      }
      return None;
    }

    method AddFragment(f: Fragment)
      modifies this`builders
      ensures builders == Extended(old(builders), f)
    {
      var builder := if f.index in builders then builders[f.index] else EMPTY_BUILDER;
      if f.id != "" {
        builder := builder.(id := f.id);
      }
      if f.name != "" {
        builder := builder.(name := f.name);
      }
      builder := builder.(arguments := builder.arguments + f.arguments);
      builders := builders[f.index := builder];
    }

    /** What the reader has come to after a call: its state, or the failure that stopped it. */
    function Answer(failure: Option<StreamFailure>): State
      reads this
    {
      if failure.Some? then Halted(events, failure.value) else Going(Value())
    }

    method AddFragments(fragments: seq<Fragment>)
      modifies this`builders
      ensures Going(Value()) == Process(Going(old(Value())), Pieces(fragments), prices)
    {
      ghost var before := Value();
      for n := 0 to |fragments|
        invariant Going(Value()) == Process(Going(before), Pieces(fragments[..n]), prices)
        invariant Value() == before.(builders := builders)
      {
        assert Pieces(fragments[..n + 1])[..n] == Pieces(fragments[..n]);
        AddFragment(fragments[n]);
      }
      assert fragments[..|fragments|] == fragments;
    }

    method Conclude(finish: Finish) returns (failure: Option<StreamFailure>)
      modifies this
      ensures Answer(failure) == Feed(Going(old(Value())), Ending(finish), prices)
    {
      failure := None;
      if finish.ToolCallsFinish? {
        failure := EmitToolCalls();
        if failure.None? {
          emitted, completed := true, true;
        }
      } else if finish.StopFinish? {
        events := events + [Completed(text)];
        completed := true;
      } else if finish.CutShort? {
        failure := Some(IncompleteResponse(finish.reason));
      }
    }

    method ConsumeChoice(choice: Choice) returns (failure: Option<StreamFailure>)
      modifies this
      ensures Answer(failure) == Process(Going(old(Value())), ChoiceAtoms(choice), prices)
    {
      ghost var start := Going(Value());
      ghost var content := if choice.content != "" then [Text(choice.content)] else [];
      if choice.content != "" {
        text := text + choice.content;
        events := events + [TextDelta(choice.content)];
        OneAtom(start, Text(choice.content), prices);
      }
      AddFragments(choice.fragments);
      ProcessAdd(start, content, Pieces(choice.fragments), prices);
      ghost var middle := Going(Value());
      failure := Conclude(choice.finish);
      OneAtom(middle, Ending(choice.finish), prices);
      ProcessAdd(start, content + Pieces(choice.fragments), [Ending(choice.finish)], prices);
    }

    method ConsumeChoices(choices: seq<Choice>) returns (failure: Option<StreamFailure>)
      modifies this
      ensures Answer(failure) == Process(Going(old(Value())), ChoicesAtoms(choices), prices)
    {
      ghost var start := Going(Value());
      failure := None;
      for n := 0 to |choices|
        invariant failure.None? && Going(Value()) == Process(start, Joined(ChoiceAtoms, choices[..n]), prices)
      {
        ProcessNext(start, ChoiceAtoms, choices, n, prices);
        failure := ConsumeChoice(choices[n]);
        if failure.Some? {
          StaysStopped(start, ChoiceAtoms, choices, n + 1, prices);
          return;
        }
      }
      assert choices[..|choices|] == choices;
    }

    method ConsumeChunk(chunk: Chunk) returns (failure: Option<StreamFailure>)
      modifies this
      ensures Answer(failure) == Process(Going(old(Value())), LineAtoms(Data(chunk)), prices)
    {
      ghost var start := Going(Value());
      ghost var usage := if chunk.usage.Some? then [Spent(chunk.usage.value)] else [];
      if chunk.usage.Some? {
        events := events + [UsageReport(UsageOf(chunk.usage.value, prices))];
        OneAtom(start, Spent(chunk.usage.value), prices);
      }
      ProcessAdd(start, usage, ChoicesAtoms(chunk.choices), prices);
      failure := ConsumeChoices(chunk.choices);
    }
  }

  lemma OneAtom(s: State, atom: Atom, prices: Prices)
    ensures Process(s, [atom], prices) == Feed(s, atom, prices)
  {
    assert [atom][..0] == [];
  }

  method ConsumeLine(reader: Reader, line: Line) returns (ended: bool, failure: Option<StreamFailure>)
    modifies reader
    ensures (if ended then Over(reader.Value()) else reader.Answer(failure)) ==
            Process(Going(old(reader.Value())), LineAtoms(line), reader.prices)
    ensures ended ==> failure.None?
  {
    ended, failure := false, None;
    match line {
      case Skipped =>
      case EndOfData =>
        OneAtom(Going(reader.Value()), End, reader.prices);
        ended := true;
      case Malformed(message) =>
        OneAtom(Going(reader.Value()), Bad(MalformedStream(message)), reader.prices);
        failure := Some(MalformedStream(message));
      case Unreadable(message) =>
        OneAtom(Going(reader.Value()), Bad(ReadFailure(message)), reader.prices);
        failure := Some(ReadFailure(message));
      case Data(chunk) =>
        failure := reader.ConsumeChunk(chunk);
    }
  }

  /**
    The whole reading of a stream. What it puts out, and how it ends, is a function of what the stream brings
    alone, in order: not of how that was cut into choices, chunks and lines.
   */
  method ConsumeStream(lines: seq<Line>, prices: Prices) returns (events: seq<ModelEvent>, failure: Option<StreamFailure>)
    ensures (events, failure) == Outcome(Process(Going(START), Atoms(lines), prices))
  {
    var reader := new Reader(prices);
    failure := None;
    var ended := false;
    var n := 0;
    while n < |lines| && !ended
      invariant 0 <= n <= |lines|
      invariant reader.prices == prices && fresh(reader)
      invariant Process(Going(START), Atoms(lines[..n]), prices) == if ended then Over(reader.Value()) else Going(reader.Value())
      decreases |lines| - n
    {
      ProcessNext(Going(START), LineAtoms, lines, n, prices);
      var over;
      over, failure := ConsumeLine(reader, lines[n]);
      if failure.Some? {
        StaysStopped(Going(START), LineAtoms, lines, n + 1, prices);
        return reader.events, failure;
      }
      ended := over;
      n := n + 1;
    }
    if ended {
      StaysStopped(Going(START), LineAtoms, lines, n, prices);
    } else {
      assert lines[..n] == lines;
    }
    if |reader.builders| > 0 && !reader.emitted {
      failure := reader.EmitToolCalls();
      if failure.Some? {
        return reader.events, failure;
      }
      reader.completed := true;
    }
    if !reader.completed {
      return reader.events, Some(IncompleteResponse(""));
    }
    return reader.events, None;
  }

  lemma PartsOfChunk(usage: Option<Tokens>, first: seq<Choice>, second: seq<Choice>)
    ensures LineAtoms(Data(Chunk(usage, first + second))) ==
            LineAtoms(Data(Chunk(usage, first))) + LineAtoms(Data(Chunk(None, second)))
  {
    JoinedAdd(ChoiceAtoms, first, second);
  }

  lemma Replaced<T>(atomsOf: T -> seq<Atom>, before: seq<T>, x: seq<T>, y: seq<T>, after: seq<T>)
    requires Joined(atomsOf, x) == Joined(atomsOf, y)
    ensures Joined(atomsOf, before + x + after) == Joined(atomsOf, before + y + after)
  {
    JoinedAdd(atomsOf, before, x);
    JoinedAdd(atomsOf, before + x, after);
    JoinedAdd(atomsOf, before, y);
    JoinedAdd(atomsOf, before + y, after);
  }

  lemma ThreeItems<T>(atomsOf: T -> seq<Atom>, whole: T, left: T, none: T, right: T)
    requires atomsOf(whole) == atomsOf(left) + atomsOf(right) && atomsOf(none) == []
    ensures Joined(atomsOf, [whole]) == Joined(atomsOf, [left, none, right])
  {
    JoinedOne(atomsOf, [], whole);
    JoinedOne(atomsOf, [], left);
    JoinedOne(atomsOf, [left], none);
    JoinedOne(atomsOf, [left, none], right);
    assert [] + [whole] == [whole] && [] + [left] == [left] && [left] + [none] == [left, none];
    assert [left, none] + [right] == [left, none, right];
  }

  /** A chunk may be cut between its choices, and lines that carry nothing may come in between. */
  lemma Recut(before: seq<Line>, usage: Option<Tokens>, first: seq<Choice>, second: seq<Choice>, after: seq<Line>)
    ensures Atoms(before + [Data(Chunk(usage, first + second))] + after) ==
            Atoms(before + [Data(Chunk(usage, first)), Skipped, Data(Chunk(None, second))] + after)
  {
    var whole, left, right := Data(Chunk(usage, first + second)), Data(Chunk(usage, first)), Data(Chunk(None, second));
    PartsOfChunk(usage, first, second);
    ThreeItems(LineAtoms, whole, left, Skipped, right);
    Replaced(LineAtoms, before, [whole], [left, Skipped, right], after);
  }

  // Cuts within a choice

  /** Streams that bring the same but for finishes that say nothing put out the same and end alike. */
  lemma SameEssence(lines: seq<Line>, lines': seq<Line>, prices: Prices)
    requires Essence(Atoms(lines)) == Essence(Atoms(lines'))
    ensures Outcome(Process(Going(START), Atoms(lines), prices)) == Outcome(Process(Going(START), Atoms(lines'), prices))
  {
    EssenceDecides(Going(START), Atoms(lines), prices);
    EssenceDecides(Going(START), Atoms(lines'), prices);
  }

  lemma PiecesAdd(first: seq<Fragment>, second: seq<Fragment>)
    ensures Pieces(first + second) == Pieces(first) + Pieces(second)
  {
  }

  lemma UnfinishedVanishes(choice: Choice)
    requires choice.finish.NoFinish?
    ensures Essence(ChoiceAtoms(choice)) == Essence((if choice.content != "" then [Text(choice.content)] else []) + Pieces(choice.fragments))
  {
    var atoms := (if choice.content != "" then [Text(choice.content)] else []) + Pieces(choice.fragments);
    assert ChoiceAtoms(choice) == atoms + [Ending(NoFinish)];
    assert ChoiceAtoms(choice)[..|atoms|] == atoms;
  }

  /** A choice may be cut anywhere between its text and fragments, if the first part has no finish of its own. */
  lemma ChoiceParts(content: string, first: seq<Fragment>, second: seq<Fragment>, finish: Finish)
    ensures Essence(ChoiceAtoms(Choice(content, first + second, finish))) ==
            Essence(ChoiceAtoms(Choice(content, first, NoFinish))) + Essence(ChoiceAtoms(Choice("", second, finish)))
  {
    var text := if content != "" then [Text(content)] else [];
    UnfinishedVanishes(Choice(content, first, NoFinish));
    PiecesAdd(first, second);
    var front, back := text + Pieces(first), Pieces(second) + [Ending(finish)];
    assert ChoiceAtoms(Choice(content, first + second, finish)) == front + back;
    assert ChoiceAtoms(Choice("", second, finish)) == back;
    EssenceAdd(front, back);
  }

  lemma EssenceOfLines(before: seq<Line>, middle: seq<Line>, middle': seq<Line>, after: seq<Line>)
    requires Essence(Atoms(middle)) == Essence(Atoms(middle'))
    ensures Essence(Atoms(before + middle + after)) == Essence(Atoms(before + middle' + after))
  {
    JoinedAdd(LineAtoms, before, middle);
    JoinedAdd(LineAtoms, before + middle, after);
    JoinedAdd(LineAtoms, before, middle');
    JoinedAdd(LineAtoms, before + middle', after);
    EssenceAdd(Atoms(before + middle), Atoms(after));
    EssenceAdd(Atoms(before), Atoms(middle));
    EssenceAdd(Atoms(before + middle'), Atoms(after));
    EssenceAdd(Atoms(before), Atoms(middle'));
  }

  lemma OneLine(line: Line)
    ensures Atoms([line]) == LineAtoms(line)
  {
    JoinedOne(LineAtoms, [], line);
    assert [] + [line] == [line];
  }

  lemma TwoLines(left: Line, right: Line)
    ensures Atoms([left, Skipped, right]) == LineAtoms(left) + LineAtoms(right)
  {
    OneLine(left);
    JoinedOne(LineAtoms, [left], Skipped);
    JoinedOne(LineAtoms, [left, Skipped], right);
    assert [left] + [Skipped] == [left, Skipped] && [left, Skipped] + [right] == [left, Skipped, right];
  }

  lemma OneChoice(choice: Choice)
    ensures ChoicesAtoms([choice]) == ChoiceAtoms(choice)
  {
    JoinedOne(ChoiceAtoms, [], choice);
    assert [] + [choice] == [choice];
  }

  function SpentAtoms(usage: Option<Tokens>): seq<Atom> {
    if usage.Some? then [Spent(usage.value)] else []
  }

  /** What a chunk brings around one of its choices. */
  lemma AroundChoice(usage: Option<Tokens>, choices: seq<Choice>, choice: Choice, more: seq<Choice>)
    ensures LineAtoms(Data(Chunk(usage, choices + [choice] + more))) ==
            SpentAtoms(usage) + (ChoicesAtoms(choices) + ChoiceAtoms(choice) + ChoicesAtoms(more))
  {
    JoinedAdd(ChoiceAtoms, choices + [choice], more);
    JoinedAdd(ChoiceAtoms, choices, [choice]);
    OneChoice(choice);
  }

  lemma LastChoice(usage: Option<Tokens>, choices: seq<Choice>, choice: Choice)
    ensures LineAtoms(Data(Chunk(usage, choices + [choice]))) == SpentAtoms(usage) + (ChoicesAtoms(choices) + ChoiceAtoms(choice))
  {
    JoinedAdd(ChoiceAtoms, choices, [choice]);
    OneChoice(choice);
  }

  lemma FirstChoice(choice: Choice, more: seq<Choice>)
    ensures LineAtoms(Data(Chunk(None, [choice] + more))) == ChoiceAtoms(choice) + ChoicesAtoms(more)
  {
    JoinedAdd(ChoiceAtoms, [choice], more);
    OneChoice(choice);
  }

  lemma ChunkParts(usage: Option<Tokens>, choices: seq<Choice>, content: string, first: seq<Fragment>, second: seq<Fragment>,
                   finish: Finish, more: seq<Choice>)
    ensures Essence(LineAtoms(Data(Chunk(usage, choices + [Choice(content, first + second, finish)] + more)))) ==
            Essence(LineAtoms(Data(Chunk(usage, choices + [Choice(content, first, NoFinish)]))))
            + Essence(LineAtoms(Data(Chunk(None, [Choice("", second, finish)] + more))))
  {
    var whole, left, right := Choice(content, first + second, finish), Choice(content, first, NoFinish), Choice("", second, finish);
    AroundChoice(usage, choices, whole, more);
    LastChoice(usage, choices, left);
    FirstChoice(right, more);
    ChoiceParts(content, first, second, finish);
    ThreePieces(SpentAtoms(usage), ChoicesAtoms(choices), ChoiceAtoms(whole), ChoiceAtoms(left), ChoiceAtoms(right), ChoicesAtoms(more));
  }

  lemma Associated<T>(a: seq<T>, b: seq<T>, left: seq<T>, right: seq<T>, c: seq<T>)
    ensures a + (b + (left + right) + c) == a + (b + left) + (right + c)
  {
  }

  lemma ThreePieces(spent: seq<Atom>, choices: seq<Atom>, whole: seq<Atom>, left: seq<Atom>, right: seq<Atom>, more: seq<Atom>)
    requires Essence(whole) == Essence(left) + Essence(right)
    ensures Essence(spent + (choices + whole + more)) == Essence(spent + (choices + left)) + Essence(right + more)
  {
    EssenceAdd(spent, choices + whole + more);
    EssenceAdd(choices + whole, more);
    EssenceAdd(choices, whole);
    EssenceAdd(spent, choices + left);
    EssenceAdd(choices, left);
    EssenceAdd(right, more);
    Associated(Essence(spent), Essence(choices), Essence(left), Essence(right), Essence(more));
  }

  /** However the fragments of a choice are spread over choices and chunks, calls, events and outcome are the same. */
  lemma RecutWithin(before: seq<Line>, usage: Option<Tokens>, choices: seq<Choice>, content: string, first: seq<Fragment>,
                    second: seq<Fragment>, finish: Finish, more: seq<Choice>, after: seq<Line>, prices: Prices)
    ensures var whole := Data(Chunk(usage, choices + [Choice(content, first + second, finish)] + more));
            var left := Data(Chunk(usage, choices + [Choice(content, first, NoFinish)]));
            var right := Data(Chunk(None, [Choice("", second, finish)] + more));
            Outcome(Process(Going(START), Atoms(before + [whole] + after), prices))
            == Outcome(Process(Going(START), Atoms(before + [left, Skipped, right] + after), prices))
  {
    var whole := Data(Chunk(usage, choices + [Choice(content, first + second, finish)] + more));
    var left := Data(Chunk(usage, choices + [Choice(content, first, NoFinish)]));
    var right := Data(Chunk(None, [Choice("", second, finish)] + more));
    ChunkParts(usage, choices, content, first, second, finish, more);
    OneLine(whole);
    TwoLines(left, right);
    EssenceAdd(LineAtoms(left), LineAtoms(right));
    EssenceOfLines(before, [whole], [left, Skipped, right], after);
    SameEssence(before + [whole] + after, before + [left, Skipped, right] + after, prices);
  }

  /** Asked a second time, the adapter puts the same calls out again. */
  lemma AskedTwice(prices: Prices)
    ensures var f := Fragment(0, "id", "tool", "{}");
            var s := Process(Going(START), [Piece(f), Ending(ToolCallsFinish), Ending(ToolCallsFinish)], prices);
            Outcome(s) == ([CallOf(Builder("id", "tool", "{}")), CallOf(Builder("id", "tool", "{}"))], None)
  {
    var f := Fragment(0, "id", "tool", "{}");
    var atoms := [Piece(f), Ending(ToolCallsFinish), Ending(ToolCallsFinish)];
    assert atoms[..2] == [Piece(f), Ending(ToolCallsFinish)] && atoms[..2][..1] == [Piece(f)];
    OneAtom(Going(START), Piece(f), prices);
    var call := CallOf(Builder("id", "tool", "{}"));
    var a := START.(builders := map[0 := Builder("id", "tool", "{}")]);
    assert "" + f.arguments == "{}";
    assert Process(Going(START), atoms[..2][..1], prices) == Going(a);
    assert Emission(a.builders, 1) == [];
    assert Emission(a.builders, 0) == [call] && Reached(a.builders, 0) == 1;
    var a' := a.(emitted := true, completed := true, events := [call]);
    assert [] + [call] == [call];
    assert Process(Going(START), atoms[..2], prices) == Going(a');
    assert Process(Going(START), atoms, prices) == Emitted(a');
    assert [call] + [call] == [call, call];
  }
}
