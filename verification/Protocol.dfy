/** The wire types shared by the server and the browser.

    A `string` stands for a sequence of bytes, one `char` a byte, because the
    server measures and cuts its strings in bytes. */
module Protocol {

  datatype Option<+T> = None | Some(value: T)

  /** The UTF-8 encoding of the horizontal ellipsis, three bytes. */
  const ELLIPSIS: string := "\U{00E2}\U{0080}\U{00A6}"

  // ---------------------------------------------------------------- items

  /** Provider accounting of one message. */
  datatype Billing = Billing(
    cost: real, inputTokens: int, outputTokens: int,
    cachedInputTokens: int, cacheWriteTokens: int, reasoningTokens: int)

  const NO_BILLING := Billing(0.0, 0, 0, 0, 0, 0)

  datatype Message = Message(
    id: string, role: string, agentName: string, text: string, reasoning: string,
    streaming: bool, createdAt: string, model: string, attachments: seq<string>, billing: Billing)

  datatype ToolState = Pending | Running | Success | Error | Rejected

  type Arguments = map<string, string>
  datatype Image = Image(name: string, mimeType: string, data: string)

  /** `arguments` and `images` keep the difference between an absent value and
      a present but empty one, which the server sees and the wire does not. */
  datatype Tool = Tool(
    id: string, name: string, displayName: string, category: string, agentName: string,
    argsSummary: string, arguments: Option<Arguments>, images: Option<seq<Image>>,
    state: ToolState, preview: string, truncated: bool, outputBytes: int, isError: bool)

  datatype Transfer = Transfer(id: string, fromAgent: string, toAgent: string, switching: bool)
  datatype Notice = Notice(id: string, level: string, text: string, code: string)
  datatype Summary = Summary(id: string, text: string, cost: real)

  datatype Item =
    | MessageItem(message: Message)
    | ToolItem(tool: Tool)
    | TransferItem(transfer: Transfer)
    | NoticeItem(notice: Notice)
    | SummaryItem(summary: Summary)

  // --------------------------------------------------------------- status

  datatype RunState = Idle | Busy | Stopping
  datatype RunStatus = RunStatus(state: RunState, runId: string, queued: seq<string>)

  datatype Usage = Usage(inputTokens: int, outputTokens: int, cost: real, contextLimit: int)
  datatype MessageUsage = MessageUsage(billing: Billing, model: string)

  datatype Meta = Meta(chatId: string, workspaceId: string, sessionId: string, title: string,
                       model: string, executionTarget: string)

  // --------------------------------------------------------------- events

  datatype ToolPhase = Start | Update | End

  /** The body of an event: its type together with the payload that type
      selects. `Bare` is an event whose payload is missing. */
  datatype Payload =
    | MessageEvent(message: Message)
    | AssistantDelta(itemId: string, text: string)
    | ReasoningDelta(itemId: string, text: string)
    | AssistantEnd(itemId: string)
    | ReasoningEnd(itemId: string)
    | ToolEvent(phase: ToolPhase, tool: Tool)
    | TransferEvent(transfer: Transfer)
    | NoticeEvent(notice: Notice)
    | SummaryEvent(summary: Summary)
    | RunEvent(run: RunStatus)
    | UsageEvent(usage: Usage, lastMessage: Option<MessageUsage>)
    | MetaEvent(meta: Meta)
    | ChatClosed(reason: string)
    | Bare

  /** What JSON with `omitempty` leaves of an optional collection. */
  function WireTool(t: Tool): Tool {
    t.(arguments := if t.arguments == Some(map[]) then None else t.arguments,
       images := if t.images == Some([]) then None else t.images)
  }

  function WireItem(it: Item): Item {
    match it
    case ToolItem(t) => ToolItem(WireTool(t))
    case _ => it
  }

  /** The event as the browser receives it: empty collections are dropped, and
      so is the per-message usage, which is never encoded. */
  function Wire(p: Payload): Payload {
    match p
    case ToolEvent(phase, t) => ToolEvent(phase, WireTool(t))
    case UsageEvent(u, _) => UsageEvent(u, None)
    case _ => p
  }
}
