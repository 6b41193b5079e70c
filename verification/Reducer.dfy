/** The browser's reducer. It keeps a plain list, uncapped, and never sees what
    the wire drops. */
module Reducer {
  import opened Protocol
  import opened Timeline

  datatype ChatState = ChatState(
    seqNo: nat, items: seq<Item>, meta: Option<Meta>, run: RunStatus, usage: Usage,
    closed: bool, closedReason: string)

  const INITIAL: ChatState :=
    ChatState(0, [], None, RunStatus(Idle, "", []), Usage(0, 0, 0.0, 0), false, "")

  /** The complete server state at a sequence number. */
  datatype Snapshot = Snapshot(seqNo: nat, chat: Chat)

  /** What travels over one connection. */
  datatype Frame =
    | EventFrame(seqNo: nat, body: Payload)
    | SnapshotFrame(snap: Snapshot)
    | GapFrame

  /** The list a snapshot carries: empty optional collections are not encoded. */
  function WireItems(items: seq<Item>): (r: seq<Item>)
    ensures |r| == |items|
    ensures forall i :: 0 <= i < |r| ==> r[i] == WireItem(items[i])
  {
    seq(|items|, i requires 0 <= i < |items| => WireItem(items[i]))
  }

  function ApplySnapshot(snap: Snapshot): ChatState {
    ChatState(snap.seqNo, WireItems(snap.chat.items), Some(snap.chat.meta), snap.chat.run, snap.chat.usage, false, "")
  }

  /** The tool kept when `t` arrives for the known tool `cur`. */
  function ClientTool(cur: Tool, t: Tool, appendPreview: bool): Tool {
    t.(displayName := OrElse(t.displayName, cur.displayName),
       argsSummary := OrElse(t.argsSummary, cur.argsSummary),
       arguments := if t.arguments.Some? then t.arguments else cur.arguments,
       images := if t.images.Some? then t.images else cur.images,
       preview := if appendPreview then cur.preview + t.preview else t.preview,
       outputBytes := if appendPreview then cur.outputBytes + t.outputBytes else t.outputBytes)
  }

  function UpsertTool(items: seq<Item>, t: Tool, appendPreview: bool): seq<Item> {
    match Lookup(items, ToolKey(t.id))
    case None => items + [ToolItem(t)]
    case Some(ToolItem(cur)) => Upsert(items, ToolItem(ClientTool(cur, t, appendPreview)))
    case _ => items
  }

  function PatchText(items: seq<Item>, id: string, text: string, reasoning: string, streaming: bool): seq<Item> {
    match Lookup(items, MessageKey(id))
    case Some(MessageItem(m)) =>
      Upsert(items, MessageItem(m.(text := m.text + text, reasoning := m.reasoning + reasoning,
                                   streaming := streaming)))
    case _ => items
  }

  function ReduceItems(items: seq<Item>, p: Payload): seq<Item> {
    match p
    case MessageEvent(m) => Upsert(items, MessageItem(m))
    case AssistantDelta(id, text) => PatchText(items, id, text, "", true)
    case ReasoningDelta(id, text) => PatchText(items, id, "", text, true)
    case AssistantEnd(id) => PatchText(items, id, "", "", false)
    case ReasoningEnd(id) => PatchText(items, id, "", "", false)
    case ToolEvent(phase, t) => UpsertTool(items, t, phase.Update?)
    case TransferEvent(x) => Upsert(items, TransferItem(x))
    case NoticeEvent(n) => Upsert(items, NoticeItem(n))
    case SummaryEvent(s) => Upsert(items, SummaryItem(s))
    case _ => items
  }

  function ReduceEvent(state: ChatState, seqNo: nat, p: Payload): ChatState {
    var next := state.(seqNo := seqNo, items := ReduceItems(state.items, p));
    match p
    case RunEvent(run) => next.(run := run)
    case MetaEvent(meta) => next.(meta := Some(meta))
    case UsageEvent(usage, _) => next.(usage := usage)
    case ChatClosed(reason) => next.(closed := true, closedReason := reason)
    case _ => next
  }

  /** One frame. An event at or below the state's own sequence number was seen
      before and is ignored; a snapshot always replaces the state. */
  function Reduce(state: ChatState, f: Frame): ChatState {
    match f
    case SnapshotFrame(snap) => ApplySnapshot(snap)
    case GapFrame => state
    case EventFrame(n, p) =>
      if 0 < n <= state.seqNo then state
      else ReduceEvent(state, if n > 0 then n else state.seqNo, p)
  }

  /** Apply a list of frames in order. */
  function ReduceAll(state: ChatState, frames: seq<Frame>): ChatState {
    if frames == [] then state
    else Reduce(ReduceAll(state, frames[..|frames| - 1]), frames[|frames| - 1])
  }
}
