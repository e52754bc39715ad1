/** The events a session emits and the blocks a renderer draws, with the fields the client reads. */
module Events {
  import opened Text

  datatype Response = Response(id: string, model: string, status: string, failure: string)

  datatype Part = Part(kind: string, text: string)

  /** One output item. Absent fields read as empty; arguments are None when they do not decode. */
  datatype OutputItem = OutputItem(
    kind: string, id: string, callId: string, name: string, agentName: string, status: string,
    arguments: Option<string>, output: string, content: seq<Part>)

  /** The output_text parts of a message, joined. */
  function OutputText(content: seq<Part>): string {
    if content == [] then "" else
      var last := content[|content| - 1];
      OutputText(content[..|content| - 1]) + if last.kind == "output_text" then last.text else ""
  }

  datatype Status = Idle | Failed | OtherStatus(name: string)

  datatype Event =
    | ResponseCreated(response: Response)
    | Queued(response: Response)
    | InProgress(response: Response)
    | ResponseCompleted(response: Response)
    | ResponseFailed(response: Response)
    | ResponseIncomplete(response: Response)
    | ResponseCancelled(response: Response)
    | ReasoningStarted
    | ReasoningTextDelta(delta: string)
    | ReasoningSummaryTextDelta(delta: string)
    | OutputTextDelta(delta: string)
    | OutputItemDone(item: OutputItem)
    | CompactionInProgress
    | Retry(source: string, attempt: int, maxAttempts: int)
    | ServerError(source: string, code: string, message: string)
    | OutputFileDone(fileId: string, filename: Option<string>)
    | ElicitationRequest(elicitationId: string, target: Option<string>)
    | SessionInputConsumed(itemId: string, clearedPendingId: Option<string>)
    | SessionStatus(conversationId: string, status: Status, responseId: Option<string>, reason: string)
    | SessionSuperseded(conversationId: string, targetId: string)
    | OtherEvent(name: string)
  {
    /** A response has begun speaking. */
    predicate Starts() { ResponseCreated? || InProgress? }

    /** A response has reached a terminal state. */
    predicate Ends() {
      ResponseCompleted? || ResponseFailed? || ResponseIncomplete? || ResponseCancelled?
    }
  }

  datatype BlockContext = BlockContext(agent: string, depth: nat, iteration: nat)

  datatype ToolExecution = ToolExecution(
    name: string, arguments: Option<string>, argsSummary: string, callId: string,
    agentName: string, executedBy: string, output: Option<string>)

  datatype Block =
    | ResponseStartBlock(ctx: BlockContext, model: string, responseId: string)
    | ToolGroup(ctx: BlockContext, execution: ToolExecution)
    | ToolResultBlock(ctx: BlockContext, name: string, callId: string, agentName: string,
                      output: string, arguments: Option<string>, argsSummary: string)
    | NativeToolBlock(ctx: BlockContext, toolType: string, item: OutputItem)
    | TextChunk(ctx: BlockContext, text: string)
    | TextDone(ctx: BlockContext, fullText: string, hasCodeBlocks: bool)
    | ReasoningStartBlock(ctx: BlockContext)
    | ReasoningChunk(ctx: BlockContext, text: string)
    | ReasoningBlock(ctx: BlockContext, reasoningText: string, summaryText: string)
    | ErrorBlock(ctx: BlockContext, source: string, code: string, message: string)
    | RetryBlock(ctx: BlockContext, source: string, attempt: int, maxAttempts: int)
    | CompactionBlock(ctx: BlockContext)
    | FileBlock(ctx: BlockContext, fileId: string, filename: Option<string>)
    | ResponseEndBlock(ctx: BlockContext, status: string, response: Response)

  /** A fenced code block somewhere in the text. */
  predicate HasFence(text: string) {
    |text| >= 3 && (text[..3] == "```" || HasFence(text[1..]))
  }

  function TextDoneOf(ctx: BlockContext, text: string): Block {
    TextDone(ctx, text, HasFence(text))
  }
}
