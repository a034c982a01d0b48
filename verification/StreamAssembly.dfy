/**
  The OpenAI-compatible adapter's reading of a chat completion stream: text deltas pass through, tool
  calls are put together from fragments, and a stream ends well only when it was finished.
 */
module StreamAssembly {
  import opened Domain
  import opened Engine

  datatype Fragment = Fragment(index: int, id: string, name: string, arguments: string)

  datatype Finish = NoFinish | ToolCallsFinish | StopFinish | CutShort(reason: string) | OtherFinish(reason: string)

  datatype Choice = Choice(content: string, fragments: seq<Fragment>, finish: Finish)

  datatype Tokens = Tokens(prompt: int, completion: int)

  datatype Chunk = Chunk(usage: Option<Tokens>, choices: seq<Choice>)

  /** A line of the event stream as the scanner sees it; `Unreadable` is the scanner's own failure. */
  datatype Line = Skipped | Data(chunk: Chunk) | Malformed(message: string) | EndOfData | Unreadable(message: string)

  datatype StreamFailure =
    | MalformedStream(message: string)
    | MissingCall(index: nat)
    | IncompleteResponse(reason: string)
    | ReadFailure(message: string)

  /** Price per million tokens, in micros. */
  datatype Prices = Prices(input: int, output: int)

  datatype Builder = Builder(id: string, name: string, arguments: string)

  const EMPTY_BUILDER := Builder("", "", "")

  /** Division by a million that truncates toward zero. */
  function PerMillion(a: int): int {
    if a < 0 then -((-a) / 1_000_000) else a / 1_000_000
  }

  /** The quotient of the least remainder that has the sign of the dividend. */
  lemma PerMillionTruncates(a: int)
    ensures var rest := a - PerMillion(a) * 1_000_000;
            if a < 0 then -1_000_000 < rest <= 0 else 0 <= rest < 1_000_000
  {
  }

  function CostMicros(tokens: Tokens, prices: Prices): int {
    PerMillion(tokens.prompt * prices.input) + PerMillion(tokens.completion * prices.output)
  }

  function UsageOf(tokens: Tokens, prices: Prices): Usage {
    Usage(tokens.prompt, tokens.completion, CostMicros(tokens, prices))
  }

  // A stream as the sequence of what it brings, however it was cut into chunks

  datatype Atom =
    | Spent(tokens: Tokens)
    | Text(content: string)
    | Piece(fragment: Fragment)
    | Ending(finish: Finish)
    | Bad(failure: StreamFailure)
    | End

  function Pieces(fragments: seq<Fragment>): seq<Atom> {
    seq(|fragments|, i requires 0 <= i < |fragments| => Piece(fragments[i]))
  }

  function ChoiceAtoms(choice: Choice): seq<Atom> {
    (if choice.content != "" then [Text(choice.content)] else []) + Pieces(choice.fragments) + [Ending(choice.finish)]
  }

  /** What the items bring, one after the other. */
  function Joined<T>(atomsOf: T -> seq<Atom>, items: seq<T>): seq<Atom> {
    if items == [] then [] else Joined(atomsOf, items[..|items| - 1]) + atomsOf(items[|items| - 1])
  }

  lemma JoinedOne<T>(atomsOf: T -> seq<Atom>, items: seq<T>, item: T)
    ensures Joined(atomsOf, items + [item]) == Joined(atomsOf, items) + atomsOf(item)
  {
    assert (items + [item])[..|items|] == items;
  }

  lemma {:induction false} JoinedAdd<T>(atomsOf: T -> seq<Atom>, first: seq<T>, second: seq<T>)
    ensures Joined(atomsOf, first + second) == Joined(atomsOf, first) + Joined(atomsOf, second)
  {
    if second == [] {
      assert first + second == first;
    } else {
      var m := |second| - 1;
      assert first + second == first + second[..m] + [second[m]];
      JoinedAdd(atomsOf, first, second[..m]);
      JoinedOne(atomsOf, first + second[..m], second[m]);
    }
  }

  function ChoicesAtoms(choices: seq<Choice>): seq<Atom> {
    Joined(ChoiceAtoms, choices)
  }

  function LineAtoms(line: Line): seq<Atom> {
    match line
    case Skipped => []
    case Data(chunk) => (if chunk.usage.Some? then [Spent(chunk.usage.value)] else []) + ChoicesAtoms(chunk.choices)
    case Malformed(message) => [Bad(MalformedStream(message))]
    case EndOfData => [End]
    case Unreadable(message) => [Bad(ReadFailure(message))]
  }

  function Atoms(lines: seq<Line>): seq<Atom> {
    Joined(LineAtoms, lines)
  }

  // What the adapter makes of it

  datatype Assembly = Assembly(
    text: string,
    builders: map<int, Builder>,
    emitted: bool,
    completed: bool,
    events: seq<ModelEvent>)

  const START := Assembly("", map[], false, false, [])

  datatype State = Going(a: Assembly) | Over(a: Assembly) | Halted(events: seq<ModelEvent>, failure: StreamFailure)

  function Grown(builder: Builder, f: Fragment): Builder {
    Builder(if f.id != "" then f.id else builder.id,
            if f.name != "" then f.name else builder.name,
            builder.arguments + f.arguments)
  }

  function Extended(builders: map<int, Builder>, f: Fragment): map<int, Builder> {
    builders[f.index := Grown(if f.index in builders then builders[f.index] else EMPTY_BUILDER, f)]
  }

  predicate Complete(builders: map<int, Builder>, index: int) {
    index in builders && builders[index].id != "" && builders[index].name != ""
  }

  function CallOf(builder: Builder): ModelEvent {
    CallReady(ToolCall(builder.id, builder.name, builder.arguments))
  }

  /** The calls from an index on, as far as they are complete. */
  function Emission(builders: map<int, Builder>, index: nat): seq<ModelEvent>
    decreases |builders| - index
  {
    if index < |builders| && Complete(builders, index) then [CallOf(builders[index])] + Emission(builders, index + 1) else []
  }

  /** How far the emission from an index comes. */
  function Reached(builders: map<int, Builder>, index: nat): nat
    decreases |builders| - index
  {
    if index < |builders| && Complete(builders, index) then Reached(builders, index + 1) else index
  }

  function Emitted(a: Assembly): State {
    var events := a.events + Emission(a.builders, 0);
    if Reached(a.builders, 0) < |a.builders| then Halted(events, MissingCall(Reached(a.builders, 0)))
    else Going(a.(emitted := true, completed := true, events := events))
  }

  function Feed(s: State, atom: Atom, prices: Prices): State {
    if !s.Going? then s
    else
      var a := s.a;
      match atom
      case Spent(tokens) => Going(a.(events := a.events + [UsageReport(UsageOf(tokens, prices))]))
      case Text(content) => Going(a.(text := a.text + content, events := a.events + [TextDelta(content)]))
      case Piece(fragment) => Going(a.(builders := Extended(a.builders, fragment)))
      case Ending(ToolCallsFinish) => Emitted(a)
      case Ending(StopFinish) => Going(a.(completed := true, events := a.events + [Completed(a.text)]))
      case Ending(CutShort(reason)) => Halted(a.events, IncompleteResponse(reason))
      case Ending(_) => s
      case Bad(failure) => Halted(a.events, failure)
      case End => Over(a)
  }

  function Process(s: State, atoms: seq<Atom>, prices: Prices): State {
    if atoms == [] then s else Feed(Process(s, atoms[..|atoms| - 1], prices), atoms[|atoms| - 1], prices)
  }

  /** Calls that no finish reason has asked for are emitted at the end; an unfinished stream is a failure. */
  function Outcome(s: State): (seq<ModelEvent>, Option<StreamFailure>) {
    if s.Halted? then (s.events, Some(s.failure))
    else
      var last := if s.a.builders != map[] && !s.a.emitted then Emitted(s.a) else Going(s.a);
      if last.Halted? then (last.events, Some(last.failure))
      else if !last.a.completed then (last.a.events, Some(IncompleteResponse("")))
      else (last.a.events, None)
  }

  lemma {:induction false} ProcessAdd(s: State, first: seq<Atom>, second: seq<Atom>, prices: Prices)
    ensures Process(s, first + second, prices) == Process(Process(s, first, prices), second, prices)
  {
    if second == [] {
      assert first + second == first;
    } else {
      assert (first + second)[..|first + second| - 1] == first + second[..|second| - 1];
      ProcessAdd(s, first, second[..|second| - 1], prices);
    }
  }

  /** A stream stopped within its first items stays stopped. */
  lemma StaysStopped<T>(s: State, atomsOf: T -> seq<Atom>, items: seq<T>, n: nat, prices: Prices)
    requires n <= |items| && !Process(s, Joined(atomsOf, items[..n]), prices).Going?
    ensures Process(s, Joined(atomsOf, items), prices) == Process(s, Joined(atomsOf, items[..n]), prices)
  {
    var first, rest := items[..n], items[n..];
    assert first + rest == items;
    JoinedAdd(atomsOf, first, rest);
    ProcessAdd(s, Joined(atomsOf, first), Joined(atomsOf, rest), prices);
    OnceStopped(Process(s, Joined(atomsOf, first), prices), Joined(atomsOf, rest), prices);
  }

  /** One item more. */
  lemma ProcessNext<T>(s: State, atomsOf: T -> seq<Atom>, items: seq<T>, n: nat, prices: Prices)
    requires n < |items|
    ensures Process(s, Joined(atomsOf, items[..n + 1]), prices) ==
            Process(Process(s, Joined(atomsOf, items[..n]), prices), atomsOf(items[n]), prices)
  {
    assert items[..n + 1] == items[..n] + [items[n]];
    JoinedOne(atomsOf, items[..n], items[n]);
    ProcessAdd(s, Joined(atomsOf, items[..n]), atomsOf(items[n]), prices);
  }

  lemma {:induction false} OnceStopped(s: State, atoms: seq<Atom>, prices: Prices)
    requires !s.Going?
    ensures Process(s, atoms, prices) == s
  {
    if atoms != [] {
      OnceStopped(s, atoms[..|atoms| - 1], prices);
    }
  }

  // Reference: what a call is, from its fragments alone

  /** The fragments of one index, in arrival order. */
  function At(fragments: seq<Fragment>, index: int): seq<Fragment> {
    if fragments == [] then []
    else
      var last := fragments[|fragments| - 1];
      At(fragments[..|fragments| - 1], index) + if last.index == index then [last] else []
  }

  function LastId(fragments: seq<Fragment>): string {
    if fragments == [] then ""
    else if fragments[|fragments| - 1].id != "" then fragments[|fragments| - 1].id
    else LastId(fragments[..|fragments| - 1])
  }

  function LastName(fragments: seq<Fragment>): string {
    if fragments == [] then ""
    else if fragments[|fragments| - 1].name != "" then fragments[|fragments| - 1].name
    else LastName(fragments[..|fragments| - 1])
  }

  function AllArguments(fragments: seq<Fragment>): string {
    if fragments == [] then "" else AllArguments(fragments[..|fragments| - 1]) + fragments[|fragments| - 1].arguments
  }

  function Assembled(fragments: seq<Fragment>): Builder {
    Builder(LastId(fragments), LastName(fragments), AllArguments(fragments))
  }

  ghost predicate Builds(builders: map<int, Builder>, fragments: seq<Fragment>) {
    && (forall i :: i in builders <==> At(fragments, i) != [])
    && (forall i :: i in builders ==> builders[i] == Assembled(At(fragments, i)))
  }

  lemma AssembledAdd(fragments: seq<Fragment>, f: Fragment)
    ensures Assembled(fragments + [f]) == Grown(Assembled(fragments), f)
  {
    assert (fragments + [f])[..|fragments|] == fragments;
  }

  lemma ExtendedBuilds(builders: map<int, Builder>, fragments: seq<Fragment>, f: Fragment)
    requires Builds(builders, fragments)
    ensures Builds(Extended(builders, f), fragments + [f])
  {
    assert (fragments + [f])[..|fragments|] == fragments;
    AssembledAdd(At(fragments, f.index), f);
    assert At(fragments + [f], f.index) == At(fragments, f.index) + [f];
    forall i | i != f.index
      ensures At(fragments + [f], i) == At(fragments, i)
    {
    }
  }

  /** The builders that fragments grow. */
  function BuildersOf(fragments: seq<Fragment>): map<int, Builder> {
    if fragments == [] then map[] else Extended(BuildersOf(fragments[..|fragments| - 1]), fragments[|fragments| - 1])
  }

  lemma {:induction false} BuildersOfBuilds(fragments: seq<Fragment>)
    ensures Builds(BuildersOf(fragments), fragments)
  {
    if fragments != [] {
      var n := |fragments| - 1;
      assert fragments == fragments[..n] + [fragments[n]];
      BuildersOfBuilds(fragments[..n]);
      ExtendedBuilds(BuildersOf(fragments[..n]), fragments[..n], fragments[n]);
    }
  }

  /** All fragments of a stream, in arrival order. */
  function FragmentsIn(atoms: seq<Atom>): seq<Fragment> {
    if atoms == [] then []
    else
      var last := atoms[|atoms| - 1];
      FragmentsIn(atoms[..|atoms| - 1]) + if last.Piece? then [last.fragment] else []
  }

  lemma FeedBuilds(s: State, atom: Atom, prices: Prices)
    requires Feed(s, atom, prices).Going?
    ensures s.Going?
    ensures Feed(s, atom, prices).a.builders == if atom.Piece? then Extended(s.a.builders, atom.fragment) else s.a.builders
  {
  }

  lemma FragmentsAdd(before: seq<Atom>, atom: Atom)
    ensures FragmentsIn(before + [atom]) == if atom.Piece? then FragmentsIn(before) + [atom.fragment] else FragmentsIn(before)
  {
    assert (before + [atom])[..|before|] == before;
  }

  lemma {:induction false} BuildersAreOf(atoms: seq<Atom>, prices: Prices)
    requires Process(Going(START), atoms, prices).Going?
    ensures Process(Going(START), atoms, prices).a.builders == BuildersOf(FragmentsIn(atoms))
  {
    if atoms != [] {
      var before, last := atoms[..|atoms| - 1], atoms[|atoms| - 1];
      assert atoms == before + [last];
      FeedBuilds(Process(Going(START), before, prices), last, prices);
      BuildersAreOf(before, prices);
      FragmentsAdd(before, last);
      if last.Piece? {
        assert (FragmentsIn(before) + [last.fragment])[..|FragmentsIn(before)|] == FragmentsIn(before);
      }
    }
  }

  /** While a stream goes on, each builder is exactly its index's fragments put together. */
  lemma BuildersAssembled(atoms: seq<Atom>, prices: Prices)
    requires Process(Going(START), atoms, prices).Going?
    ensures Builds(Process(Going(START), atoms, prices).a.builders, FragmentsIn(atoms))
  {
    BuildersAreOf(atoms, prices);
    BuildersOfBuilds(FragmentsIn(atoms));
  }

  // Emission

  lemma {:induction false} EmissionReaches(builders: map<int, Builder>, index: nat)
    requires index <= |builders|
    ensures index <= Reached(builders, index) <= |builders|
    ensures |Emission(builders, index)| == Reached(builders, index) - index
    ensures Reached(builders, index) < |builders| ==> !Complete(builders, Reached(builders, index))
    decreases |builders| - index
  {
    if index < |builders| && Complete(builders, index) {
      EmissionReaches(builders, index + 1);
    }
  }

  lemma {:induction false} EmissionAt(builders: map<int, Builder>, index: nat, k: nat)
    requires k < |Emission(builders, index)|
    ensures Complete(builders, index + k) && Emission(builders, index)[k] == CallOf(builders[index + k])
    decreases k
  {
    if k > 0 {
      EmissionAt(builders, index + 1, k - 1);
    }
  }

  function UpTo(n: nat): (s: set<int>)
    ensures forall i :: i in s <==> 0 <= i < n
    ensures |s| == n
  {
    if n == 0 then {} else UpTo(n - 1) + {n - 1}
  }

  lemma SameSize(a: set<int>, b: set<int>)
    requires a <= b && |a| == |b|
    ensures a == b
  {
    assert a * b == a && a - b == {} && a + b == b;
    assert |b - a| == 0;
  }

  lemma KeysAreUpTo(builders: map<int, Builder>)
    requires forall i: int :: 0 <= i < |builders| ==> Complete(builders, i)
    ensures builders.Keys == UpTo(|builders|)
  {
    forall i | i in UpTo(|builders|)
      ensures i in builders.Keys
    {
      assert Complete(builders, i);
    }
    assert |builders.Keys| == |builders|;
    SameSize(UpTo(|builders|), builders.Keys);
  }

  lemma EmissionExact(a: Assembly)
    requires Emitted(a).Going?
    ensures a.builders.Keys == UpTo(|a.builders|)
    ensures |Emission(a.builders, 0)| == |a.builders|
    ensures forall i: int :: 0 <= i < |a.builders| ==> Complete(a.builders, i) && Emission(a.builders, 0)[i] == CallOf(a.builders[i])
  {
    EmissionReaches(a.builders, 0);
    forall i: int | 0 <= i < |a.builders|
      ensures Complete(a.builders, i) && Emission(a.builders, 0)[i] == CallOf(a.builders[i])
    {
      EmissionAt(a.builders, 0, i);
    }
    KeysAreUpTo(a.builders);
  }

  /** Emission succeeds exactly when the indices are 0 to n-1 and every call has an id and a name. */
  lemma EmissionSucceeds(a: Assembly)
    ensures Emitted(a).Going? <==>
            a.builders.Keys == UpTo(|a.builders|) && forall i: int :: i in UpTo(|a.builders|) ==> Complete(a.builders, i)
  {
    if Emitted(a).Going? {
      EmissionExact(a);
    } else {
      EmissionReaches(a.builders, 0);
      assert Reached(a.builders, 0) in UpTo(|a.builders|);
    }
  }

  /** The indices are 0 to n-1, and the call of each has an id and a name. */
  ghost predicate Callable(fragments: seq<Fragment>, n: nat) {
    && (forall i: int :: At(fragments, i) != [] <==> 0 <= i < n)
    && (forall i :: 0 <= i < n ==> LastId(At(fragments, i)) != "" && LastName(At(fragments, i)) != "")
  }

  ghost predicate HasCalls(fragments: seq<Fragment>) {
    exists n :: Callable(fragments, n)
  }

  lemma CallableKeys(builders: map<int, Builder>, fragments: seq<Fragment>, n: nat)
    requires Builds(builders, fragments) && Callable(fragments, n)
    ensures builders.Keys == UpTo(n) && |builders| == n
    ensures forall i: int :: i in UpTo(n) ==> Complete(builders, i)
  {
    assert builders.Keys == UpTo(n);
    assert |builders.Keys| == |builders|;
  }

  lemma CompleteIsCallable(builders: map<int, Builder>, fragments: seq<Fragment>)
    requires Builds(builders, fragments) && builders.Keys == UpTo(|builders|)
    requires forall i: int :: i in UpTo(|builders|) ==> Complete(builders, i)
    ensures Callable(fragments, |builders|)
  {
    forall i: int
      ensures At(fragments, i) != [] <==> 0 <= i < |builders|
    {
      assert i in builders <==> i in UpTo(|builders|);
    }
    forall i | 0 <= i < |builders|
      ensures LastId(At(fragments, i)) != "" && LastName(At(fragments, i)) != ""
    {
      assert i in UpTo(|builders|);
    }
  }

  lemma EmissionDecided(a: Assembly, fragments: seq<Fragment>)
    requires Builds(a.builders, fragments)
    ensures Emitted(a).Going? <==> HasCalls(fragments)
  {
    EmissionSucceeds(a);
    if n :| Callable(fragments, n) {
      CallableKeys(a.builders, fragments, n);
    }
    if Emitted(a).Going? {
      CompleteIsCallable(a.builders, fragments);
    }
  }

  /**
    Asking a stream for its calls succeeds exactly when its fragments have the indices 0 to n-1, in whatever order
    they came, and each index got an id and a name.
   */
  lemma AskingSucceeds(atoms: seq<Atom>, prices: Prices)
    requires Process(Going(START), atoms, prices).Going?
    ensures Process(Going(START), atoms + [Ending(ToolCallsFinish)], prices).Going? <==> HasCalls(FragmentsIn(atoms))
  {
    var asked := atoms + [Ending(ToolCallsFinish)];
    assert asked[..|asked| - 1] == atoms;
    assert Process(Going(START), asked, prices) == Emitted(Process(Going(START), atoms, prices).a);
    BuildersAssembled(atoms, prices);
    var fragments := FragmentsIn(atoms);
    EmissionDecided(Process(Going(START), atoms, prices).a, fragments);
    assert HasCalls(fragments) == HasCalls(FragmentsIn(atoms));
  }

  // Calls in the output

  function CallsIn(events: seq<ModelEvent>): seq<ModelEvent> {
    if events == [] then []
    else
      var last := events[|events| - 1];
      CallsIn(events[..|events| - 1]) + if last.CallReady? then [last] else []
  }

  lemma {:induction false} CallsInAdd(a: seq<ModelEvent>, b: seq<ModelEvent>)
    ensures CallsIn(a + b) == CallsIn(a) + CallsIn(b)
  {
    if b == [] {
      assert a + b == a;
    } else {
      assert (a + b)[..|a + b| - 1] == a + b[..|b| - 1];
      CallsInAdd(a, b[..|b| - 1]);
    }
  }

  lemma {:induction false} AllCalls(events: seq<ModelEvent>)
    requires forall i :: 0 <= i < |events| ==> events[i].CallReady?
    ensures CallsIn(events) == events
  {
    if events != [] {
      AllCalls(events[..|events| - 1]);
    }
  }

  /** The calls a set of fragments stands for, one per index. */
  ghost predicate CallsMade(calls: seq<ModelEvent>, fragments: seq<Fragment>) {
    && (forall i: int :: At(fragments, i) != [] <==> 0 <= i < |calls|)
    && (forall i :: 0 <= i < |calls| ==>
          && LastId(At(fragments, i)) != "" && LastName(At(fragments, i)) != ""
          && calls[i] == CallReady(ToolCall(LastId(At(fragments, i)), LastName(At(fragments, i)), AllArguments(At(fragments, i)))))
  }

  lemma CallsStandFor(builders: map<int, Builder>, calls: seq<ModelEvent>, fragments: seq<Fragment>)
    requires Builds(builders, fragments) && builders.Keys == UpTo(|calls|)
    requires forall i: int :: 0 <= i < |calls| ==> Complete(builders, i) && calls[i] == CallOf(builders[i])
    ensures CallsMade(calls, fragments)
  {
    forall i: int
      ensures At(fragments, i) != [] <==> 0 <= i < |calls|
    {
      assert i in builders <==> i in UpTo(|calls|);
    }
    forall i | 0 <= i < |calls|
      ensures builders[i] == Assembled(At(fragments, i))
    {
    }
  }

  // How often the calls are put out

  /** How many finishes ask for the calls. */
  function Finishes(atoms: seq<Atom>): nat {
    if atoms == [] then 0
    else Finishes(atoms[..|atoms| - 1]) + if atoms[|atoms| - 1] == Ending(ToolCallsFinish) then 1 else 0
  }

  /** The calls of fragments, in index order, as far as they are complete. */
  function CallsOf(fragments: seq<Fragment>): seq<ModelEvent> {
    Emission(BuildersOf(fragments), 0)
  }

  /** What the finishes ask for: each time all calls of the fragments so far. */
  function AskedFor(atoms: seq<Atom>): seq<ModelEvent> {
    if atoms == [] then []
    else
      var before := atoms[..|atoms| - 1];
      AskedFor(before) + if atoms[|atoms| - 1] == Ending(ToolCallsFinish) then CallsOf(FragmentsIn(before)) else []
  }

  lemma EmissionMade(a: Assembly, fragments: seq<Fragment>)
    requires a.builders == BuildersOf(fragments) && Emitted(a).Going?
    ensures CallsMade(CallsOf(fragments), fragments)
  {
    BuildersOfBuilds(fragments);
    EmissionExact(a);
    CallsStandFor(a.builders, Emission(a.builders, 0), fragments);
  }

  lemma EmissionAdds(a: Assembly)
    requires Emitted(a).Going?
    ensures CallsIn(Emitted(a).a.events) == CallsIn(a.events) + Emission(a.builders, 0)
  {
    EmissionExact(a);
    CallsInAdd(a.events, Emission(a.builders, 0));
    AllCalls(Emission(a.builders, 0));
  }

  lemma FeedAddsNoCalls(s: State, atom: Atom, prices: Prices)
    requires s.Going? && atom != Ending(ToolCallsFinish) && Feed(s, atom, prices).Going?
    ensures var a' := Feed(s, atom, prices).a;
            a'.emitted == s.a.emitted && CallsIn(a'.events) == CallsIn(s.a.events)
  {
    var a' := Feed(s, atom, prices).a;
    if a'.events != s.a.events {
      CallsInAdd(s.a.events, [a'.events[|s.a.events|]]);
    }
  }

  /** While any stream goes on, what is out are the calls of the fragments so far, once for each finish that asked. */
  lemma {:induction false} CallsAsked(atoms: seq<Atom>, prices: Prices)
    requires Process(Going(START), atoms, prices).Going?
    ensures var a := Process(Going(START), atoms, prices).a;
            CallsIn(a.events) == AskedFor(atoms) && (a.emitted <==> Finishes(atoms) > 0)
  {
    if atoms != [] {
      var before, last := atoms[..|atoms| - 1], atoms[|atoms| - 1];
      var s := Process(Going(START), before, prices);
      FeedBuilds(s, last, prices);
      CallsAsked(before, prices);
      if last == Ending(ToolCallsFinish) {
        BuildersAreOf(before, prices);
        EmissionAdds(s.a);
      } else {
        FeedAddsNoCalls(s, last, prices);
      }
    }
  }

  lemma SomeBuilders(fragments: seq<Fragment>)
    requires fragments != []
    ensures BuildersOf(fragments) != map[]
  {
    assert fragments[|fragments| - 1].index in BuildersOf(fragments);
  }

  lemma NoCalls(fragments: seq<Fragment>)
    requires BuildersOf(fragments) == map[]
    ensures CallsOf(fragments) == [] && fragments == [] && CallsMade([], fragments)
  {
    BuildersOfBuilds(fragments);
    if fragments != [] {
      SomeBuilders(fragments);
    }
  }

  /** When a stream ends well: the calls asked for, or, if none were, all of them once. */
  lemma EndCalls(a: Assembly, atoms: seq<Atom>, prices: Prices)
    requires Process(Going(START), atoms, prices) == Going(a) && Outcome(Going(a)).1.None?
    ensures CallsIn(Outcome(Going(a)).0) == if Finishes(atoms) == 0 then CallsOf(FragmentsIn(atoms)) else AskedFor(atoms)
    ensures Finishes(atoms) == 0 ==> CallsMade(CallsOf(FragmentsIn(atoms)), FragmentsIn(atoms))
  {
    CallsAsked(atoms, prices);
    BuildersAreOf(atoms, prices);
    if Finishes(atoms) == 0 {
      NothingAsked(atoms);
      if a.builders == map[] {
        NoCalls(FragmentsIn(atoms));
      } else {
        EmissionMade(a, FragmentsIn(atoms));
        EmissionAdds(a);
      }
    }
  }

  lemma {:induction false} NothingAsked(atoms: seq<Atom>)
    requires Finishes(atoms) == 0
    ensures AskedFor(atoms) == []
  {
    if atoms != [] {
      NothingAsked(atoms[..|atoms| - 1]);
    }
  }

  /** No fragment comes behind a finish that asks for the calls. */
  predicate NoLateFragment(atoms: seq<Atom>) {
    forall i, j :: 0 <= i < j < |atoms| && atoms[i] == Ending(ToolCallsFinish) ==> !atoms[j].Piece?
  }

  function Repeated(calls: seq<ModelEvent>, n: nat): seq<ModelEvent> {
    if n == 0 then [] else Repeated(calls, n - 1) + calls
  }

  lemma {:induction false} RepeatedLength(calls: seq<ModelEvent>, n: nat)
    ensures |Repeated(calls, n)| == n * |calls|
  {
    if n > 0 {
      RepeatedLength(calls, n - 1);
    }
  }

  lemma {:induction false} FinishFound(atoms: seq<Atom>) returns (i: nat)
    requires Finishes(atoms) > 0
    ensures i < |atoms| && atoms[i] == Ending(ToolCallsFinish)
  {
    i := |atoms| - 1;
    if atoms[i] != Ending(ToolCallsFinish) {
      i := FinishFound(atoms[..i]);
    }
  }

  lemma NoneAskedBefore(before: seq<Atom>, last: Atom)
    requires NoLateFragment(before + [last])
    ensures NoLateFragment(before)
    ensures last.Piece? ==> Finishes(before) == 0
  {
    var atoms := before + [last];
    assert atoms[|before|] == last;
    forall i, j | 0 <= i < j < |before| && before[i] == Ending(ToolCallsFinish)
      ensures !before[j].Piece?
    {
      assert atoms[i] == before[i] && atoms[j] == before[j];
    }
    if Finishes(before) > 0 {
      var i := FinishFound(before);
      assert atoms[i] == before[i];
    }
  }

  lemma {:induction false} AskedForRepeats(atoms: seq<Atom>)
    requires NoLateFragment(atoms)
    ensures AskedFor(atoms) == Repeated(CallsOf(FragmentsIn(atoms)), Finishes(atoms))
  {
    if atoms != [] {
      var before, last := atoms[..|atoms| - 1], atoms[|atoms| - 1];
      assert atoms == before + [last];
      NoneAskedBefore(before, last);
      AskedForRepeats(before);
      FragmentsAdd(before, last);
    }
  }

  lemma AskedNowMade(before: seq<Atom>, prices: Prices)
    requires Process(Going(START), before, prices).Going?
    requires Feed(Process(Going(START), before, prices), Ending(ToolCallsFinish), prices).Going?
    ensures CallsMade(CallsOf(FragmentsIn(before)), FragmentsIn(before))
  {
    BuildersAreOf(before, prices);
    EmissionMade(Process(Going(START), before, prices).a, FragmentsIn(before));
  }

  /** Asked when something was incomplete, a stream has failed; so the calls of its fragments are made. */
  lemma {:induction false} AskedAreMade(atoms: seq<Atom>, prices: Prices)
    requires NoLateFragment(atoms) && Finishes(atoms) > 0 && Process(Going(START), atoms, prices).Going?
    ensures CallsMade(CallsOf(FragmentsIn(atoms)), FragmentsIn(atoms))
  {
    var before, last := atoms[..|atoms| - 1], atoms[|atoms| - 1];
    assert atoms == before + [last];
    FeedBuilds(Process(Going(START), before, prices), last, prices);
    NoneAskedBefore(before, last);
    FragmentsAdd(before, last);
    if last == Ending(ToolCallsFinish) {
      AskedNowMade(before, prices);
    } else {
      assert !last.Piece?;
      AskedAreMade(before, prices);
    }
  }

  lemma {:induction false} CallsMadeOnce(calls: seq<ModelEvent>, fragments: seq<Fragment>, n: nat)
    requires CallsMade(calls, fragments) && 1 <= n
    ensures CallsMade(Repeated(calls, n), fragments) <==> n == 1 || fragments == []
  {
    RepeatedLength(calls, n);
    assert Repeated(calls, 0) + calls == calls;
    if fragments == [] {
      assert calls == [] by { assert |calls| > 0 ==> At(fragments, 0) != []; }
    } else if n > 1 {
      assert At(fragments, fragments[|fragments| - 1].index) != [];
      assert |Repeated(calls, n)| > |calls| by { assert n * |calls| >= 2 * |calls|; }
      assert At(fragments, |calls|) == [];
    }
  }

  /** What is read of a stream: everything before its end mark, if it has one. */
  function Heard(atoms: seq<Atom>): seq<Atom> {
    if atoms == [] then []
    else
      var before := Heard(atoms[..|atoms| - 1]);
      if |before| == |atoms| - 1 && !atoms[|atoms| - 1].End? then atoms else before
  }

  lemma {:induction false} HeardIsRead(atoms: seq<Atom>, prices: Prices)
    requires !Process(Going(START), atoms, prices).Halted?
    ensures |Heard(atoms)| <= |atoms|
    ensures Process(Going(START), Heard(atoms), prices) == Going(Process(Going(START), atoms, prices).a)
    ensures Process(Going(START), atoms, prices).Going? ==> Heard(atoms) == atoms
    ensures Process(Going(START), atoms, prices).Over? ==> |Heard(atoms)| < |atoms|
  {
    if atoms != [] {
      HeardIsRead(atoms[..|atoms| - 1], prices);
    }
  }

  lemma HeardOutcome(atoms: seq<Atom>, prices: Prices) returns (a: Assembly)
    requires Outcome(Process(Going(START), atoms, prices)).1.None?
    ensures Process(Going(START), Heard(atoms), prices) == Going(a)
    ensures Outcome(Process(Going(START), atoms, prices)) == Outcome(Going(a))
  {
    HeardIsRead(atoms, prices);
    a := Process(Going(START), atoms, prices).a;
  }

  /** Whatever stream ends well has put out the calls of the fragments before each finish that asked, or all of them at its end. */
  lemma CallsPutOut(atoms: seq<Atom>, prices: Prices)
    requires Outcome(Process(Going(START), atoms, prices)).1.None?
    ensures CallsIn(Outcome(Process(Going(START), atoms, prices)).0) ==
            if Finishes(Heard(atoms)) == 0 then CallsOf(FragmentsIn(Heard(atoms))) else AskedFor(Heard(atoms))
  {
    var a := HeardOutcome(atoms, prices);
    EndCalls(a, Heard(atoms), prices);
  }

  /**
    A stream that ends well, with no fragment behind its first finish that asks for calls, has put out the calls its
    fragments stand for as often as it was asked, and once if it was not. So each call is out exactly once if and
    only if at most one finish asked, or there is no fragment at all.
   */
  lemma CallsRepeat(atoms: seq<Atom>, prices: Prices)
    requires NoLateFragment(Heard(atoms)) && Outcome(Process(Going(START), atoms, prices)).1.None?
    ensures var events, fragments := Outcome(Process(Going(START), atoms, prices)).0, FragmentsIn(Heard(atoms));
            var times := if Finishes(Heard(atoms)) == 0 then 1 else Finishes(Heard(atoms));
            && CallsMade(CallsOf(fragments), fragments)
            && CallsIn(events) == Repeated(CallsOf(fragments), times)
            && (CallsMade(CallsIn(events), fragments) <==> Finishes(Heard(atoms)) <= 1 || fragments == [])
  {
    var heard := Heard(atoms);
    var a := HeardOutcome(atoms, prices);
    EndCalls(a, heard, prices);
    AskedForRepeats(heard);
    if Finishes(heard) > 0 {
      AskedAreMade(heard, prices);
    }
    var calls := CallsOf(FragmentsIn(heard));
    assert Repeated(calls, 0) + calls == calls;
    CallsMadeOnce(calls, FragmentsIn(heard), if Finishes(heard) == 0 then 1 else Finishes(heard));
  }

  /** At most one finish asks for the calls, and no fragment follows it. */
  predicate AsksOnce(atoms: seq<Atom>) {
    forall i, j :: 0 <= i < j < |atoms| && atoms[i] == Ending(ToolCallsFinish)
                   ==> !atoms[j].Piece? && atoms[j] != Ending(ToolCallsFinish)
  }

  lemma {:induction false} OneFinish(atoms: seq<Atom>)
    requires AsksOnce(atoms)
    ensures Finishes(atoms) <= 1
  {
    if atoms != [] {
      var n := |atoms| - 1;
      assert AsksOnce(atoms[..n]);
      OneFinish(atoms[..n]);
      if Finishes(atoms[..n]) > 0 {
        var i := FinishFound(atoms[..n]);
        assert atoms[i] == Ending(ToolCallsFinish);
      }
    }
  }

  /**
    A stream that asks for its calls at most once, with no fragment behind it, and ends well has put out
    exactly the calls that its fragments stand for: one per index 0 to n-1 in order, each with its last id
    and name and all its arguments, whatever came in between and however the stream was cut.
   */
  lemma StreamCalls(atoms: seq<Atom>, prices: Prices)
    requires AsksOnce(Heard(atoms)) && Outcome(Process(Going(START), atoms, prices)).1.None?
    ensures CallsMade(CallsIn(Outcome(Process(Going(START), atoms, prices)).0), FragmentsIn(Heard(atoms)))
  {
    OneFinish(Heard(atoms));
    CallsRepeat(atoms, prices);
  }

  // Fragments behind the finish

  lemma MadeKeys(calls: seq<ModelEvent>, f: seq<Fragment>, i: int)
    requires CallsMade(calls, f)
    ensures i in BuildersOf(f) <==> 0 <= i < |calls|
    ensures i in BuildersOf(f) ==> calls[i] == CallOf(BuildersOf(f)[i])
  {
    BuildersOfBuilds(f);
    assert At(f, i) != [] <==> 0 <= i < |calls|;
  }

  lemma SameBuilders(calls: seq<ModelEvent>, f: seq<Fragment>, g: seq<Fragment>)
    requires CallsMade(calls, f) && CallsMade(calls, g)
    ensures BuildersOf(f) == BuildersOf(g)
  {
    forall i: int
      ensures i in BuildersOf(f) <==> i in BuildersOf(g)
      ensures i in BuildersOf(f) ==> BuildersOf(f)[i] == BuildersOf(g)[i]
    {
      MadeKeys(calls, f, i);
      MadeKeys(calls, g, i);
    }
  }

  lemma SameCallsMade(f: seq<Fragment>, g: seq<Fragment>)
    requires CallsMade(CallsOf(f), f) && BuildersOf(f) == BuildersOf(g)
    ensures CallsMade(CallsOf(f), g)
  {
    BuildersOfBuilds(f);
    BuildersOfBuilds(g);
    forall i: int
      ensures At(g, i) != [] <==> 0 <= i < |CallsOf(f)|
    {
      assert i in BuildersOf(f) <==> At(f, i) != [];
    }
    forall i | 0 <= i < |CallsOf(f)|
      ensures Assembled(At(g, i)) == Assembled(At(f, i))
    {
      assert i in BuildersOf(f);
    }
  }

  lemma {:induction false} AskedForOne(atoms: seq<Atom>, i: nat)
    requires i < |atoms| && atoms[i] == Ending(ToolCallsFinish) && Finishes(atoms) == 1
    ensures AskedFor(atoms) == CallsOf(FragmentsIn(atoms[..i]))
  {
    var n := |atoms| - 1;
    if i == n {
      NothingAsked(atoms[..n]);
    } else {
      FinishCounted(atoms[..n], i);
      assert atoms[..n][..i] == atoms[..i];
      AskedForOne(atoms[..n], i);
    }
  }

  lemma {:induction false} FinishCounted(atoms: seq<Atom>, i: nat)
    requires i < |atoms| && atoms[i] == Ending(ToolCallsFinish)
    ensures Finishes(atoms) > 0
  {
    if i < |atoms| - 1 {
      FinishCounted(atoms[..|atoms| - 1], i);
    }
  }

  /**
    A stream that ends well and was asked once, at index i, has put out each of its calls exactly once if and only if
    the fragments behind the finish, should there be any, add nothing to any call.
   */
  lemma LateFragments(atoms: seq<Atom>, i: nat, prices: Prices)
    requires i < |Heard(atoms)| && Heard(atoms)[i] == Ending(ToolCallsFinish) && Finishes(Heard(atoms)) == 1
    requires Outcome(Process(Going(START), atoms, prices)).1.None?
    ensures CallsMade(CallsIn(Outcome(Process(Going(START), atoms, prices)).0), FragmentsIn(Heard(atoms)))
            <==> BuildersOf(FragmentsIn(Heard(atoms)[..i])) == BuildersOf(FragmentsIn(Heard(atoms)))
  {
    var heard := Heard(atoms);
    var early, all := FragmentsIn(heard[..i]), FragmentsIn(heard);
    CallsPutOut(atoms, prices);
    AskedForOne(heard, i);
    var _ := HeardOutcome(atoms, prices);
    EarlyMade(heard, i, prices);
    if CallsMade(CallsOf(early), all) {
      SameBuilders(CallsOf(early), early, all);
    }
    if BuildersOf(early) == BuildersOf(all) {
      SameCallsMade(early, all);
    }
  }

  lemma EarlyMade(atoms: seq<Atom>, i: nat, prices: Prices)
    requires i < |atoms| && atoms[i] == Ending(ToolCallsFinish) && Process(Going(START), atoms, prices).Going?
    ensures CallsMade(CallsOf(FragmentsIn(atoms[..i])), FragmentsIn(atoms[..i]))
  {
    assert atoms == atoms[..i + 1] + atoms[i + 1..] && atoms[..i + 1][..i] == atoms[..i];
    ProcessAdd(Going(START), atoms[..i + 1], atoms[i + 1..], prices);
    if !Process(Going(START), atoms[..i + 1], prices).Going? {
      OnceStopped(Process(Going(START), atoms[..i + 1], prices), atoms[i + 1..], prices);
    }
    FeedBuilds(Process(Going(START), atoms[..i], prices), atoms[i], prices);
    BuildersAreOf(atoms[..i], prices);
    EmissionMade(Process(Going(START), atoms[..i], prices).a, FragmentsIn(atoms[..i]));
  }

  // What finishes without a meaning do

  /** The stream without its finishes that say nothing. */
  function Essence(atoms: seq<Atom>): seq<Atom> {
    if atoms == [] then []
    else
      var last := atoms[|atoms| - 1];
      Essence(atoms[..|atoms| - 1]) + if last.Ending? && (last.finish.NoFinish? || last.finish.OtherFinish?) then [] else [last]
  }

  lemma {:induction false} EssenceAdd(a: seq<Atom>, b: seq<Atom>)
    ensures Essence(a + b) == Essence(a) + Essence(b)
  {
    if b == [] {
      assert a + b == a;
    } else {
      assert (a + b)[..|a + b| - 1] == a + b[..|b| - 1];
      EssenceAdd(a, b[..|b| - 1]);
    }
  }

  /** They change nothing. */
  lemma {:induction false} EssenceDecides(s: State, atoms: seq<Atom>, prices: Prices)
    ensures Process(s, atoms, prices) == Process(s, Essence(atoms), prices)
  {
    if atoms != [] {
      var before, last := atoms[..|atoms| - 1], atoms[|atoms| - 1];
      EssenceDecides(s, before, prices);
      if Essence(atoms) != Essence(before) {
        assert (Essence(before) + [last])[..|Essence(before)|] == Essence(before);
      }
    }
  }

  // Text

  function Spelled(events: seq<ModelEvent>): string {
    if events == [] then ""
    else
      var last := events[|events| - 1];
      Spelled(events[..|events| - 1]) + if last.TextDelta? then last.delta else ""
  }

  /** A completed output is the text of the deltas before it. */
  ghost predicate OutputsSpelled(events: seq<ModelEvent>) {
    forall i :: 0 <= i < |events| && events[i].Completed? ==> events[i].output == Spelled(events[..i])
  }

  lemma {:induction false} SpelledAdd(a: seq<ModelEvent>, b: seq<ModelEvent>)
    requires forall i :: 0 <= i < |b| ==> !b[i].TextDelta? && !b[i].Completed?
    requires OutputsSpelled(a)
    ensures Spelled(a + b) == Spelled(a) && OutputsSpelled(a + b)
  {
    if b == [] {
      assert a + b == a;
    } else {
      var n := |b| - 1;
      SpelledAdd(a, b[..n]);
      assert (a + b)[..|a + b| - 1] == a + b[..n];
      forall i | 0 <= i < |a + b| && (a + b)[i].Completed?
        ensures (a + b)[i].output == Spelled((a + b)[..i])
      {
        assert (a + b)[..i] == (a + b[..n])[..i] && (a + b[..n])[i] == (a + b)[i];
      }
    }
  }

  lemma SpelledOne(events: seq<ModelEvent>, event: ModelEvent)
    requires OutputsSpelled(events) && (event.Completed? ==> event.output == Spelled(events))
    ensures OutputsSpelled(events + [event])
    ensures Spelled(events + [event]) == Spelled(events) + if event.TextDelta? then event.delta else ""
  {
    var all := events + [event];
    assert all[..|events|] == events;
    forall i | 0 <= i < |all| && all[i].Completed?
      ensures all[i].output == Spelled(all[..i])
    {
      assert i < |events| ==> all[..i] == events[..i];
    }
  }

  lemma EmittedSpells(a: Assembly)
    requires OutputsSpelled(a.events)
    ensures var events := a.events + Emission(a.builders, 0);
            OutputsSpelled(events) && Spelled(events) == Spelled(a.events)
  {
    var calls := Emission(a.builders, 0);
    forall i | 0 <= i < |calls|
      ensures calls[i].CallReady?
    {
      EmissionAt(a.builders, 0, i);
    }
    SpelledAdd(a.events, calls);
  }

  function EventsOf(s: State): seq<ModelEvent> {
    if s.Halted? then s.events else s.a.events
  }

  lemma FeedSpells(s: State, atom: Atom, prices: Prices)
    requires OutputsSpelled(EventsOf(s)) && (!s.Halted? ==> s.a.text == Spelled(s.a.events))
    ensures var s' := Feed(s, atom, prices);
            OutputsSpelled(EventsOf(s')) && (!s'.Halted? ==> s'.a.text == Spelled(s'.a.events))
  {
    if s.Going? {
      var a := s.a;
      match atom
      case Spent(tokens) => SpelledOne(a.events, UsageReport(UsageOf(tokens, prices)));
      case Text(content) => SpelledOne(a.events, TextDelta(content));
      case Ending(finish) =>
        if finish.ToolCallsFinish? {
          EmittedSpells(a);
        } else if finish.StopFinish? {
          SpelledOne(a.events, Completed(a.text));
        }
      case Piece(_) =>
      case Bad(_) =>
      case End =>
    }
  }

  lemma {:induction false} ProcessSpells(atoms: seq<Atom>, prices: Prices)
    ensures var s := Process(Going(START), atoms, prices);
            OutputsSpelled(EventsOf(s)) && (!s.Halted? ==> s.a.text == Spelled(s.a.events))
  {
    if atoms != [] {
      ProcessSpells(atoms[..|atoms| - 1], prices);
      FeedSpells(Process(Going(START), atoms[..|atoms| - 1], prices), atoms[|atoms| - 1], prices);
    }
  }

  /** On any stream, every completed output equals the concatenation of the text deltas before it. */
  lemma OutputsAreTheirDeltas(atoms: seq<Atom>, prices: Prices)
    ensures OutputsSpelled(Outcome(Process(Going(START), atoms, prices)).0)
  {
    var s := Process(Going(START), atoms, prices);
    ProcessSpells(atoms, prices);
    if !s.Halted? {
      EmittedSpells(s.a);
    }
  }

  // Usage

  function ReportsIn(events: seq<ModelEvent>): seq<Usage> {
    if events == [] then []
    else
      var last := events[|events| - 1];
      ReportsIn(events[..|events| - 1]) + if last.UsageReport? then [last.usage] else []
  }

  /** The token counts a stream brings, in arrival order. */
  function TokensIn(atoms: seq<Atom>): seq<Tokens> {
    if atoms == [] then []
    else
      var last := atoms[|atoms| - 1];
      TokensIn(atoms[..|atoms| - 1]) + if last.Spent? then [last.tokens] else []
  }

  /** A million goes this often into a, with a rest on a's side of zero. */
  predicate GoesInto(a: int, times: int) {
    var rest := a - times * 1_000_000;
    if a < 0 then -1_000_000 < rest <= 0 else 0 <= rest < 1_000_000
  }

  /** The usage that stands for token counts: prompt and completion as they came, each priced and rounded on its own. */
  ghost predicate Priced(usage: Usage, tokens: Tokens, prices: Prices) {
    && usage.inputTokens == tokens.prompt && usage.outputTokens == tokens.completion
    && exists input, output :: GoesInto(tokens.prompt * prices.input, input)
                               && GoesInto(tokens.completion * prices.output, output)
                               && usage.costMicros == input + output
  }

  lemma UsagePriced(tokens: Tokens, prices: Prices)
    ensures Priced(UsageOf(tokens, prices), tokens, prices)
  {
    PerMillionTruncates(tokens.prompt * prices.input);
    PerMillionTruncates(tokens.completion * prices.output);
    assert GoesInto(tokens.prompt * prices.input, PerMillion(tokens.prompt * prices.input));
    assert GoesInto(tokens.completion * prices.output, PerMillion(tokens.completion * prices.output));
  }

  /** The first token counts are reported, each as its usage. */
  ghost predicate ReportsFor(reports: seq<Usage>, tokens: seq<Tokens>, prices: Prices) {
    && |reports| <= |tokens|
    && forall i :: 0 <= i < |reports| ==> Priced(reports[i], tokens[i], prices)
  }

  lemma ReportsAdd(events: seq<ModelEvent>, event: ModelEvent)
    ensures ReportsIn(events + [event]) == ReportsIn(events) + if event.UsageReport? then [event.usage] else []
  {
    assert (events + [event])[..|events|] == events;
  }

  lemma {:induction false} CallsReportNothing(a: seq<ModelEvent>, b: seq<ModelEvent>)
    requires forall i :: 0 <= i < |b| ==> b[i].CallReady?
    ensures ReportsIn(a + b) == ReportsIn(a)
  {
    if b == [] {
      assert a + b == a;
    } else {
      CallsReportNothing(a, b[..|b| - 1]);
      assert (a + b)[..|a + b| - 1] == a + b[..|b| - 1];
    }
  }

  lemma EmittedReports(a: Assembly)
    ensures ReportsIn(a.events + Emission(a.builders, 0)) == ReportsIn(a.events)
  {
    var calls := Emission(a.builders, 0);
    forall i | 0 <= i < |calls|
      ensures calls[i].CallReady?
    {
      EmissionAt(a.builders, 0, i);
    }
    CallsReportNothing(a.events, calls);
  }

  lemma FeedReports(s: State, atom: Atom, prices: Prices)
    ensures ReportsIn(EventsOf(Feed(s, atom, prices))) ==
            ReportsIn(EventsOf(s)) + if s.Going? && atom.Spent? then [UsageOf(atom.tokens, prices)] else []
  {
    if s.Going? {
      var a := s.a;
      match atom
      case Spent(tokens) => ReportsAdd(a.events, UsageReport(UsageOf(tokens, prices)));
      case Text(content) => ReportsAdd(a.events, TextDelta(content));
      case Ending(finish) =>
        if finish.ToolCallsFinish? {
          EmittedReports(a);
        } else if finish.StopFinish? {
          ReportsAdd(a.events, Completed(a.text));
        }
      case Piece(_) =>
      case Bad(_) =>
      case End =>
    }
  }

  lemma {:induction false} ProcessReports(atoms: seq<Atom>, prices: Prices)
    ensures var s := Process(Going(START), atoms, prices);
            && ReportsFor(ReportsIn(EventsOf(s)), TokensIn(atoms), prices)
            && (s.Going? ==> |ReportsIn(EventsOf(s))| == |TokensIn(atoms)|)
  {
    if atoms != [] {
      var before, last := atoms[..|atoms| - 1], atoms[|atoms| - 1];
      ProcessReports(before, prices);
      FeedReports(Process(Going(START), before, prices), last, prices);
      if last.Spent? {
        UsagePriced(last.tokens, prices);
      }
    }
  }

  /** On any stream, the usage put out is that of the token counts it brought, priced, in order; none is missing unless the stream was over. */
  lemma UsageIsPriced(atoms: seq<Atom>, prices: Prices)
    ensures var s, events := Process(Going(START), atoms, prices), Outcome(Process(Going(START), atoms, prices)).0;
            && ReportsFor(ReportsIn(events), TokensIn(atoms), prices)
            && (s.Going? ==> |ReportsIn(events)| == |TokensIn(atoms)|)
  {
    var s := Process(Going(START), atoms, prices);
    ProcessReports(atoms, prices);
    if !s.Halted? {
      EmittedReports(s.a);
    }
  }
}
