/** The engine's serializable state, which is what a checkpoint holds. */
module EngineState {
  import opened Domain

  const STATE_VERSION := 1

  datatype Role = User | Assistant | Tool

  datatype Message = Message(
    role: Role,
    content: string,
    toolCallId: string,
    toolName: string,
    toolCalls: seq<ToolCall>)

  datatype Phase = ModelPhase | ToolsPhase | OtherPhase(text: string)

  datatype ExecutionState = ExecutionState(
    version: int,
    runId: string,
    manifestChecksum: string,
    phase: Phase,
    turn: int,
    messages: seq<Message>,
    pending: seq<ToolCall>,
    nextTool: int,
    toolCallsUsed: int,
    usage: Usage)

  function UserMessage(input: string): Message {
    Message(User, input, "", "", [])
  }

  function AssistantMessage(content: string, calls: seq<ToolCall>): Message {
    Message(Assistant, content, "", "", calls)
  }

  function ToolMessage(call: ToolCall, content: string): Message {
    Message(Tool, content, call.id, call.name, [])
  }

  function InitialState(request: RunRequest): ExecutionState {
    ExecutionState(STATE_VERSION, request.runId, request.manifest.checksum, ModelPhase, 1,
                   [UserMessage(request.input)], [], 0, 0, NO_USAGE)
  }

  predicate ValidState(s: ExecutionState, request: RunRequest) {
    && s.version == STATE_VERSION
    && s.runId == request.runId
    && s.manifestChecksum == request.manifest.checksum
    && 1 <= s.turn
    && 0 <= s.toolCallsUsed
    && 0 <= s.nextTool <= |s.pending|
    && s.messages != []
    && match s.phase
       case ModelPhase => s.pending == [] && s.nextTool == 0
       case ToolsPhase => s.pending != []
       case OtherPhase(_) => false
  }
}
