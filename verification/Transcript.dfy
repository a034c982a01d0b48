/**
  The conversation inside every engine-made state: one user message, then blocks of an
  assistant message with its calls and the replies to them, and the budgets that go with it.
 */
module Transcript {
  import opened Domain
  import opened EngineState
  import opened Engine
  import opened EngineInvariants

  /** An assistant message with its tool calls and the replies received so far. */
  datatype Block = Block(text: string, calls: seq<ToolCall>, replies: seq<string>)

  predicate Sound(b: Block) {
    b.calls != [] && |b.replies| <= |b.calls|
  }

  predicate Complete(b: Block) {
    b.calls != [] && |b.replies| == |b.calls|
  }

  function BlockMessages(b: Block): seq<Message>
    requires Sound(b)
  {
    [AssistantMessage(b.text, b.calls)] + seq(|b.replies|, i requires 0 <= i < |b.replies| => ToolMessage(b.calls[i], b.replies[i]))
  }

  function Flatten(blocks: seq<Block>): seq<Message>
    requires forall b :: b in blocks ==> Sound(b)
  {
    if blocks == [] then []
    else Flatten(blocks[..|blocks| - 1]) + BlockMessages(blocks[|blocks| - 1])
  }

  function CallCount(blocks: seq<Block>): nat {
    if blocks == [] then 0 else CallCount(blocks[..|blocks| - 1]) + |blocks[|blocks| - 1].calls|
  }

  /** All blocks are finished except, in the tool phase, the last, which the pending calls complete. */
  ghost predicate IsTranscript(input: string, s: ExecutionState, blocks: seq<Block>) {
    && (forall b :: b in blocks ==> Sound(b))
    && s.messages == [UserMessage(input)] + Flatten(blocks)
    && s.toolCallsUsed == CallCount(blocks)
    && match s.phase
       case ModelPhase =>
         && (forall b :: b in blocks ==> Complete(b))
         && s.turn == 1 + |blocks|
         && s.pending == [] && s.nextTool == 0
       case ToolsPhase =>
         && blocks != []
         && (forall i :: 0 <= i < |blocks| - 1 ==> Complete(blocks[i]))
         && s.turn == |blocks|
         && s.pending == blocks[|blocks| - 1].calls
         && s.nextTool == |blocks[|blocks| - 1].replies|
       case OtherPhase(_) => false
  }

  /** The invariant of engine-made states under fixed limits. */
  ghost predicate Faithful(request: RunRequest, limits: Limits, s: ExecutionState) {
    && ValidState(s, request)
    && (exists blocks :: IsTranscript(request.input, s, blocks))
    && s.toolCallsUsed <= limits.maxToolCalls
    && s.turn <= limits.maxTurns + (if s.phase.ModelPhase? then 1 else 0)
    && (s.phase.ToolsPhase? ==> WithinLimits(limits, s.usage))
  }

  /** An action hands over only faithful checkpoints, and enters tools only within budget. */
  ghost predicate FaithfulAction(request: RunRequest, limits: Limits, a: Action) {
    StateIn(a).Some? ==> Faithful(request, limits, StateIn(a).value)
  }

  lemma InitialFaithful(request: RunRequest, limits: Limits)
    requires ValidLimits(limits)
    ensures Faithful(request, limits, InitialState(request))
  {
    assert IsTranscript(request.input, InitialState(request), []);
  }

  lemma ReplyExtends(input: string, s: ExecutionState, blocks: seq<Block>, content: string) returns (blocks': seq<Block>)
    requires IsTranscript(input, s, blocks) && s.phase.ToolsPhase? && s.nextTool < |s.pending|
    ensures IsTranscript(input, AfterTool(s, s.pending[s.nextTool], content), blocks')
  {
    var n := |blocks| - 1;
    var last := blocks[n];
    var grown := last.(replies := last.replies + [content]);
    blocks' := blocks[..n] + [grown];
    assert blocks'[..n] == blocks[..n];
    assert BlockMessages(grown) == BlockMessages(last) + [ToolMessage(s.pending[s.nextTool], content)];
  }

  lemma CallsExtend(input: string, s: ExecutionState, blocks: seq<Block>, result: TurnResult) returns (blocks': seq<Block>)
    requires IsTranscript(input, s, blocks) && s.phase.ModelPhase? && result.calls != []
    ensures IsTranscript(input, WithCalls(s, result), blocks')
  {
    var block := Block(result.text, result.calls, []);
    blocks' := blocks + [block];
    assert blocks'[..|blocks|] == blocks;
    assert BlockMessages(block) == [AssistantMessage(result.text, result.calls)];
  }

  lemma ToolStepFaithful(env: Env, request: RunRequest, s: ExecutionState, recovering: bool)
    requires Faithful(request, env.limits, s) && s.phase.ToolsPhase? && s.nextTool < |s.pending|
    ensures var step := ToolStep(env, s, recovering);
            && (forall a :: a in step.actions ==> FaithfulAction(request, env.limits, a))
            && (step.next.Some? ==> Faithful(request, env.limits, step.next.value.state))
  {
    var call := s.pending[s.nextTool];
    var outcome := ExecuteTool(env, s.turn, s.nextTool, call);
    if outcome.Content? {
      var blocks :| IsTranscript(request.input, s, blocks);
      var _ := ReplyExtends(request.input, s, blocks, outcome.content);
      assert Faithful(request, env.limits, AfterTool(s, call, outcome.content));
    }
  }

  lemma RecordFaithful(env: Env, request: RunRequest, s: ExecutionState, result: TurnResult)
    requires Faithful(request, env.limits, s) && s.phase.ModelPhase?
    ensures Faithful(request, env.limits, Record(s, result))
  {
    var blocks :| IsTranscript(request.input, s, blocks);
    assert IsTranscript(request.input, Record(s, result), blocks);
  }

  lemma DecideFaithful(env: Env, request: RunRequest, s: ExecutionState, result: TurnResult)
    requires Faithful(request, env.limits, s) && s.phase.ModelPhase? && s.turn <= env.limits.maxTurns
    ensures var step := Decide(env, s, result);
            && (forall a :: a in step.actions ==> StateIn(a).None?)
            && (step.next.Some? ==> Faithful(request, env.limits, step.next.value.state))
  {
    if Decide(env, s, result).next.Some? {
      var blocks :| IsTranscript(request.input, s, blocks);
      var _ := CallsExtend(request.input, s, blocks, result);
    }
  }

  lemma ConclusionFaithful(env: Env, request: RunRequest, s: ExecutionState, outcome: Result<TurnResult, ModelFailure>)
    requires Faithful(request, env.limits, s) && s.phase.ModelPhase? && s.turn <= env.limits.maxTurns
    ensures var step := ConcludeTurn(env, s, outcome);
            && (forall a :: a in step.actions ==> FaithfulAction(request, env.limits, a))
            && (step.next.Some? ==> Faithful(request, env.limits, step.next.value.state))
  {
    if outcome.Ok? {
      RecordFaithful(env, request, s, outcome.value);
      DecideFaithful(env, request, Record(s, outcome.value), outcome.value);
    }
  }

  lemma ModelStepFaithful(env: Env, request: RunRequest, s: ExecutionState)
    requires Faithful(request, env.limits, s) && s.phase.ModelPhase?
    ensures var step := ModelStep(env, s);
            && (forall a :: a in step.actions ==> FaithfulAction(request, env.limits, a))
            && (step.next.Some? ==> Faithful(request, env.limits, step.next.value.state))
  {
    if s.turn <= env.limits.maxTurns {
      ReceiveYieldsDeltas(env, s.turn, env.model(s.turn, s.messages), 0, EMPTY_TURN);
      ConclusionFaithful(env, request, s, RunModelTurn(env, s.turn, s.messages).outcome);
    }
  }

  lemma NextTurnFaithful(request: RunRequest, limits: Limits, s: ExecutionState)
    requires Faithful(request, limits, s) && s.phase.ToolsPhase? && s.nextTool == |s.pending|
    ensures Faithful(request, limits, NextTurn(s))
  {
    var blocks :| IsTranscript(request.input, s, blocks);
    forall b | b in blocks
      ensures Complete(b)
    {
      var i :| 0 <= i < |blocks| && blocks[i] == b;
    }
    assert IsTranscript(request.input, NextTurn(s), blocks);
  }

  lemma LoopStepFaithful(env: Env, request: RunRequest, c: Cursor)
    requires Faithful(request, env.limits, c.state)
    ensures var step := LoopStep(env, c);
            && (forall a :: a in step.actions ==> FaithfulAction(request, env.limits, a))
            && (step.next.Some? ==> Faithful(request, env.limits, step.next.value.state))
  {
    if c.state.phase.ModelPhase? {
      ModelStepFaithful(env, request, c.state);
    } else if c.state.nextTool < |c.state.pending| {
      ToolStepFaithful(env, request, c.state, c.recovering);
    } else {
      NextTurnFaithful(request, env.limits, c.state);
    }
  }

  lemma {:induction false} RunFaithful(env: Env, request: RunRequest, c: Cursor)
    requires Faithful(request, env.limits, c.state)
    ensures forall a :: a in Run(env, c) ==> FaithfulAction(request, env.limits, a)
    decreases Rank(env.limits, c.state), CallsLeft(c.state)
  {
    var step := LoopStep(env, c);
    LoopStepDescends(env, c);
    LoopStepFaithful(env, request, c);
    if step.next.Some? {
      RunFaithful(env, request, step.next.value);
    }
  }

  /** Started afresh or from an engine-made checkpoint, the engine makes only faithful states. */
  lemma ExecuteFaithful(env: Env, request: RunRequest, checkpoint: Option<ExecutionState>)
    requires checkpoint.Some? ==> Faithful(request, env.limits, checkpoint.value)
    ensures forall a :: a in Execute(env, request, checkpoint) ==> FaithfulAction(request, env.limits, a)
  {
    if Accepted(env, request, checkpoint) && env.context(AtStart).Open? {
      var s := StartState(request, checkpoint);
      if checkpoint.None? {
        InitialFaithful(request, env.limits);
      }
      RunFaithful(env, request, Cursor(s, checkpoint.Some? && s.phase.ToolsPhase?));
    }
  }

  function Latest(history: seq<ExecutionState>): Option<ExecutionState> {
    if history == [] then None else Some(history[|history| - 1])
  }

  /** Restarts: a checkpoint of one call, resumed under other models and tools but the same limits, and so on. */
  ghost predicate EngineMade(request: RunRequest, limits: Limits, history: seq<ExecutionState>) {
    history != [] ==>
      var before := history[..|history| - 1];
      && EngineMade(request, limits, before)
      && exists env: Env :: env.limits == limits && MadeBy(env, request, Latest(before), history[|history| - 1])
  }

  ghost predicate MadeBy(env: Env, request: RunRequest, checkpoint: Option<ExecutionState>, s: ExecutionState) {
    exists i :: 0 <= i < |Execute(env, request, checkpoint)|
                && Execute(env, request, checkpoint)[i].Emit?
                && Execute(env, request, checkpoint)[i].checkpoint == Some(s)
  }

  lemma MadeFaithful(env: Env, request: RunRequest, checkpoint: Option<ExecutionState>, s: ExecutionState)
    requires checkpoint.Some? ==> Faithful(request, env.limits, checkpoint.value)
    requires MadeBy(env, request, checkpoint, s)
    ensures Faithful(request, env.limits, s)
  {
    var trace := Execute(env, request, checkpoint);
    var i :| 0 <= i < |trace| && trace[i].Emit? && trace[i].checkpoint == Some(s);
    ExecuteFaithful(env, request, checkpoint);
    assert FaithfulAction(request, env.limits, trace[i]);
  }

  /** Any number of crashes later, the latest checkpoint is still faithful, so it passes validation. */
  lemma {:induction false} RestartsFaithful(request: RunRequest, limits: Limits, history: seq<ExecutionState>)
    requires EngineMade(request, limits, history) && history != []
    ensures Faithful(request, limits, history[|history| - 1])
  {
    var before := history[..|history| - 1];
    var s := history[|history| - 1];
    if before != [] {
      RestartsFaithful(request, limits, before);
    }
    var env: Env :| env.limits == limits && MadeBy(env, request, Latest(before), s);
    MadeFaithful(env, request, Latest(before), s);
  }

  /** What the invariant says in budget terms: usage within limits at every tool, and calls counted exactly. */
  lemma ToolsWithinBudget(env: Env, request: RunRequest, checkpoint: Option<ExecutionState>, i: nat)
    requires checkpoint.Some? ==> Faithful(request, env.limits, checkpoint.value)
    requires i < |Execute(env, request, checkpoint)| && Execute(env, request, checkpoint)[i].Invoke?
    ensures var s := Execute(env, request, checkpoint)[i].state;
            && WithinLimits(env.limits, s.usage)
            && s.toolCallsUsed == CallsIn(s.messages) <= env.limits.maxToolCalls
  {
    var trace := Execute(env, request, checkpoint);
    var s := trace[i].state;
    ExecuteFaithful(env, request, checkpoint);
    assert FaithfulAction(request, env.limits, trace[i]);
    if Accepted(env, request, checkpoint) && env.context(AtStart).Open? {
      var start := StartState(request, checkpoint);
      RunInvokes(env, Cursor(start, checkpoint.Some? && start.phase.ToolsPhase?));
    }
    var blocks :| IsTranscript(request.input, s, blocks);
    CallsCounted(request.input, blocks);
  }

  /** The tool calls recorded in a conversation. */
  function CallsIn(messages: seq<Message>): nat {
    if messages == [] then 0 else CallsIn(messages[..|messages| - 1]) + |messages[|messages| - 1].toolCalls|
  }

  lemma {:induction false} CallsInAdd(a: seq<Message>, b: seq<Message>)
    ensures CallsIn(a + b) == CallsIn(a) + CallsIn(b)
  {
    if b == [] {
      assert a + b == a;
    } else {
      assert (a + b)[..|a + b| - 1] == a + b[..|b| - 1];
      CallsInAdd(a, b[..|b| - 1]);
    }
  }

  lemma {:induction false} RepliesCallNothing(messages: seq<Message>)
    requires forall m :: m in messages ==> m.toolCalls == []
    ensures CallsIn(messages) == 0
  {
    if messages != [] {
      RepliesCallNothing(messages[..|messages| - 1]);
    }
  }

  lemma {:induction false} FlattenCounted(blocks: seq<Block>)
    requires forall b :: b in blocks ==> Sound(b)
    ensures CallsIn(Flatten(blocks)) == CallCount(blocks)
  {
    if blocks != [] {
      var n := |blocks| - 1;
      var last := blocks[n];
      FlattenCounted(blocks[..n]);
      CallsInAdd(Flatten(blocks[..n]), BlockMessages(last));
      var head := [AssistantMessage(last.text, last.calls)];
      CallsInAdd(head, BlockMessages(last)[1..]);
      RepliesCallNothing(BlockMessages(last)[1..]);
      assert BlockMessages(last) == head + BlockMessages(last)[1..];
      assert head[..0] == [];
    }
  }

  lemma CallsCounted(input: string, blocks: seq<Block>)
    requires forall b :: b in blocks ==> Sound(b)
    ensures CallsIn([UserMessage(input)] + Flatten(blocks)) == CallCount(blocks)
  {
    CallsInAdd([UserMessage(input)], Flatten(blocks));
    RepliesCallNothing([UserMessage(input)]);
    FlattenCounted(blocks);
  }
}
