/** The vocabulary shared by every component: statuses, events, requests and results. */
module Domain {

  datatype Option<+T> = None | Some(value: T)

  datatype Result<+T, +E> = Ok(value: T) | Err(error: E)

  /** An instant in nanoseconds; `ZERO_TIME` is the value whose IsZero is true. */
  type Time = int

  const ZERO_TIME: Time := 0

  datatype RunStatus =
    | Queued
    | Running
    | WaitingApproval
    | RetryWait
    | Succeeded
    | Failed
    | Cancelled
    | Inconclusive
    | TimedOut

  datatype EventType =
    | RunCreated
    | ModelStarted
    | ModelDelta
    | UsageRecorded
    | ToolRequested
    | ToolCompleted
    | ToolFailed
    | RunSucceeded
    | RunFailed
    | RunCancelled
    | RunInconclusive
    | RunTimedOut

  datatype ExecutionMode = Live | Shadow | Eval | Replay

  datatype Manifest = Manifest(
    releaseId: string,
    checksum: string,
    agentVersion: string,
    promptVersion: string,
    skillVersions: seq<string>,
    toolsetVersion: string,
    modelProfileVersion: string,
    policyVersion: string)

  datatype RunRequest = RunRequest(
    runId: string,
    tenantId: string,
    idempotencyKey: string,
    input: string,
    mode: ExecutionMode,
    deadline: Time,
    manifest: Manifest)

  datatype FinalResult = FinalResult(status: RunStatus, output: string, error: string)

  datatype Usage = Usage(inputTokens: int, outputTokens: int, costMicros: int)

  const NO_USAGE := Usage(0, 0, 0)

  function Plus(a: Usage, b: Usage): Usage {
    Usage(a.inputTokens + b.inputTokens, a.outputTokens + b.outputTokens, a.costMicros + b.costMicros)
  }

  datatype ToolCall = ToolCall(id: string, name: string, arguments: string)

  /** What a serialized event payload carries, one constructor per event shape. */
  datatype Payload =
    | CreatedPayload(mode: ExecutionMode, manifest: Manifest)
    | EngineCreatedPayload(releaseId: string, mode: ExecutionMode)
    | StartedPayload(adapter: string, turn: int)
    | DeltaPayload(turn: int, delta: string)
    | UsagePayload(turn: int, spent: Usage, total: Usage)
    | RequestedPayload(call: ToolCall)
    | CompletedPayload(callId: string, name: string, content: string)
    | FailedPayload(callId: string, name: string, error: string)
    | ResultPayload(result: FinalResult)

  // The status predicates of the store

  predicate IsTerminal(status: RunStatus) {
    status in {Succeeded, Failed, Cancelled, Inconclusive, TimedOut}
  }

  function TerminalEventForStatus(status: RunStatus): Option<EventType> {
    match status
    case Succeeded => Some(RunSucceeded)
    case Failed => Some(RunFailed)
    case Cancelled => Some(RunCancelled)
    case Inconclusive => Some(RunInconclusive)
    case TimedOut => Some(RunTimedOut)
    case _ => None
  }

  predicate ValidTerminalEvent(result: FinalResult, event: EventType) {
    TerminalEventForStatus(result.status) == Some(event)
  }

  /** The worker's test on event types; the HTTP handler's `terminalStatus` decides the same question. */
  predicate TerminalEvent(event: EventType) {
    event in {RunSucceeded, RunFailed, RunCancelled, RunInconclusive, RunTimedOut}
  }

  function TerminalStatus(event: EventType): Option<RunStatus> {
    match event
    case RunSucceeded => Some(Succeeded)
    case RunFailed => Some(Failed)
    case RunCancelled => Some(Cancelled)
    case RunInconclusive => Some(Inconclusive)
    case RunTimedOut => Some(TimedOut)
    case _ => None
  }

  /** The three packages' tests are one bijection between terminal statuses and terminal events. */
  lemma TerminalTestsAgree(status: RunStatus, event: EventType)
    ensures TerminalEventForStatus(status) == Some(event) <==> TerminalStatus(event) == Some(status)
    ensures IsTerminal(status) <==> TerminalEventForStatus(status).Some?
    ensures TerminalEvent(event) <==> TerminalStatus(event).Some?
    ensures forall other: RunStatus :: TerminalEventForStatus(status) == TerminalEventForStatus(other) && IsTerminal(status)
              ==> other == status
  {
  }
}
