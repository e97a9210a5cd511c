/** AG-UI protocol values: stream events, messages, interrupts and resume entries. */
module Protocol {
  import opened Values

  datatype Interrupt = Interrupt(
    id: string,
    reason: string,
    message: string,
    toolCallId: string,
    expiresAt: string,
    schema: Value,
    metadata: Fields)

  datatype ResumeEntry = ResumeEntry(interruptId: string, status: string, payload: Value)

  const RESOLVED := "resolved"
  const CANCELLED := "cancelled"

  /** Why a run stopped early. The error texts themselves are not modelled. */
  datatype RunFault =
    | WriteFailed
    | ConverterFailed
    | ArgsMarshal
    | ResponseMarshal
    | BadConfirmation
    | PendingCorrupt
    | ResumeRejected
    | SessionUnavailable
    | BadResume
    | BadMessage
    | AgentFailed(message: string, code: string)

  datatype Finish = Success | Interrupted(interrupts: seq<Interrupt>)

  datatype Role = User | Assistant | Tool | Reasoning | Activity

  datatype ToolCall = ToolCall(id: string, name: string, arguments: string)

  datatype Message = Message(
    id: string,
    role: Role,
    content: Value,
    toolCalls: seq<ToolCall>,
    toolCallId: string,
    activityType: string)

  datatype PatchOp = PatchOp(op: string, path: string, value: Value)

  datatype AgEvent =
    | RunStarted(threadId: string, runId: string)
    | RunFinished(threadId: string, runId: string, outcome: Finish)
    | RunError(runId: string, fault: RunFault)
    | StepStarted(step: string)
    | StepFinished(step: string)
    | TextStart(id: string)
    | TextContent(id: string, delta: string)
    | TextEnd(id: string)
    | ReasoningStart(id: string)
    | ReasoningMessageStart(id: string)
    | ReasoningContent(id: string, delta: string)
    | ReasoningMessageEnd(id: string)
    | ReasoningEnd(id: string)
    | ToolCallStart(callId: string, name: string, parent: Option<string>)
    | ToolCallArgs(callId: string, arguments: string)
    | ToolCallEnd(callId: string)
    | ToolCallResult(id: string, callId: string, response: string)
    | StateSnapshot(state: Fields)
    | StateDelta(ops: seq<PatchOp>)
    | MessagesSnapshot(messages: seq<Message>)
    | ActivitySnapshot(activityType: string, content: Value)
    | Custom(name: string, value: Value)

  predicate IsTerminal(ev: AgEvent) {
    ev.RunFinished? || ev.RunError?
  }

  /** Events that open, fill or close nothing: what a well-behaved part converter returns. */
  predicate Neutral(ev: AgEvent) {
    ev.ActivitySnapshot? || ev.Custom?
  }
}
