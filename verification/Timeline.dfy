/** The server-side reducer: one chat's timeline as a function of its events. */
module Timeline {
  import opened Protocol
  import opened Preview

  const MAX_ITEMS := 2000

  // ------------------------------------------------------- keyed item lists

  /** An item's identity: the server and the browser both write it as a
      one-letter kind, a colon and the id. */
  datatype Key =
    | MessageKey(id: string) | ToolKey(id: string) | TransferKey(id: string)
    | NoticeKey(id: string) | SummaryKey(id: string)

  function ItemId(it: Item): Key {
    match it
    case MessageItem(m) => MessageKey(m.id)
    case ToolItem(t) => ToolKey(t.id)
    case TransferItem(x) => TransferKey(x.id)
    case NoticeItem(n) => NoticeKey(n.id)
    case SummaryItem(s) => SummaryKey(s.id)
  }

  /** The first item with the given identity. */
  function Lookup(items: seq<Item>, key: Key): Option<Item> {
    if items == [] then None
    else if ItemId(items[0]) == key then Some(items[0])
    else Lookup(items[1..], key)
  }

  /** Replace the first item of the same identity, or append. */
  function Upsert(items: seq<Item>, it: Item): seq<Item> {
    if items == [] then [it]
    else if ItemId(items[0]) == ItemId(it) then [it] + items[1..]
    else [items[0]] + Upsert(items[1..], it)
  }

  /** Upsert into a bounded timeline: a new item drops the oldest when full. */
  function UpsertCapped(items: seq<Item>, it: Item): seq<Item> {
    if Lookup(items, ItemId(it)).None? && |items| >= MAX_ITEMS
    then items[1..] + [it]
    else Upsert(items, it)
  }

  ghost predicate Distinct(items: seq<Item>) {
    forall i, j :: 0 <= i < j < |items| ==> ItemId(items[i]) != ItemId(items[j])
  }

  lemma {:induction false} LookupFinds(items: seq<Item>, key: Key)
    ensures Lookup(items, key).None? <==> forall i :: 0 <= i < |items| ==> ItemId(items[i]) != key
    ensures Lookup(items, key).Some? ==> Lookup(items, key).value in items && ItemId(Lookup(items, key).value) == key
  {
    if items != [] {
      LookupFinds(items[1..], key);
      if ItemId(items[0]) != key {
        assert items == [items[0]] + items[1..];
        assert forall i :: 1 <= i < |items| ==> items[i] == items[1..][i - 1];
      }
    }
  }

  /** The position form of the two scans. */
  lemma {:induction false} UpsertAt(items: seq<Item>, it: Item, pos: nat)
    requires Distinct(items)
    requires pos < |items| && ItemId(items[pos]) == ItemId(it)
    ensures Upsert(items, it) == items[pos := it]
    ensures Lookup(items, ItemId(it)) == Some(items[pos])
  {
    if pos > 0 {
      assert ItemId(items[0]) != ItemId(items[pos]);
      assert Distinct(items[1..]);
      UpsertAt(items[1..], it, pos - 1);
      assert items[pos := it] == [items[0]] + items[1..][pos - 1 := it];
    } else {
      assert items[0 := it] == [it] + items[1..];
    }
  }

  lemma {:induction false} UpsertNew(items: seq<Item>, it: Item)
    requires Lookup(items, ItemId(it)).None?
    ensures Upsert(items, it) == items + [it]
  {
    if items != [] {
      UpsertNew(items[1..], it);
      assert Upsert(items, it) == [items[0]] + (items[1..] + [it]);
      assert [items[0]] + items[1..] == items;
    } else {
      assert items + [it] == [it];
    }
  }

  /** Upsert changes what is found under its own key and under no other. */
  lemma {:induction false} LookupUpsert(items: seq<Item>, it: Item, key: Key)
    ensures Lookup(Upsert(items, it), key) == if key == ItemId(it) then Some(it) else Lookup(items, key)
  {
    var up := Upsert(items, it);
    if items == [] {
      assert up[1..] == [];
    } else if ItemId(items[0]) == ItemId(it) {
      assert up[1..] == items[1..];
    } else {
      assert up[1..] == Upsert(items[1..], it);
      LookupUpsert(items[1..], it, key);
    }
  }

  /** A key fixes the kind of item found under it, and the item's own id. */
  lemma KeyFixesKind(items: seq<Item>, id: string)
    ensures var m := Lookup(items, MessageKey(id));
            m.Some? ==> m.value.MessageItem? && m.value.message.id == id
    ensures var t := Lookup(items, ToolKey(id));
            t.Some? ==> t.value.ToolItem? && t.value.tool.id == id
  {
    LookupFinds(items, MessageKey(id));
    LookupFinds(items, ToolKey(id));
  }

  // ---------------------------------------------------------------- reducer

  /** Everything a snapshot carries except its sequence number. */
  datatype Chat = Chat(id: string, workspaceId: string, items: seq<Item>,
                       meta: Meta, run: RunStatus, usage: Usage)

  function OrElse(s: string, fallback: string): string {
    if s != "" then s else fallback
  }

  /** Fold a tool event onto what is known about that call; an empty field
      means "unchanged". */
  function MergeTool(known: Option<Item>, t: Tool): Tool {
    match known
    case Some(ToolItem(cur)) =>
      cur.(state := t.state,
           name := OrElse(t.name, cur.name),
           displayName := OrElse(t.displayName, cur.displayName),
           category := OrElse(t.category, cur.category),
           agentName := OrElse(t.agentName, cur.agentName),
           argsSummary := OrElse(t.argsSummary, cur.argsSummary),
           arguments := if t.arguments.Some? then t.arguments else cur.arguments,
           images := if t.images.Some? then t.images else cur.images,
           preview := OrElse(t.preview, cur.preview),
           outputBytes := if t.preview != "" then t.outputBytes else cur.outputBytes,
           isError := t.isError,
           truncated := cur.truncated || t.truncated)
    case _ => t
  }

  /** The tool stored and broadcast for an incoming tool event. */
  function FoldTool(known: Option<Item>, t: Tool): Tool {
    var merged := MergeTool(known, t);
    var (preview, cut) := ClampPreview(merged.preview);
    merged.(preview := preview, truncated := merged.truncated || cut)
  }

  predicate IsAssistant(it: Item) {
    it.MessageItem? && it.message.role == "assistant"
  }

  function WithUsage(m: Message, u: MessageUsage): Message {
    m.(billing := u.billing, model := OrElse(u.model, m.model))
  }

  /** Attach per-message usage to the most recent assistant message. */
  function AttachUsage(items: seq<Item>, u: MessageUsage): (r: seq<Item>)
    ensures |r| == |items|
  {
    if items == [] then []
    else
      var rest, last := items[..|items| - 1], items[|items| - 1];
      if IsAssistant(last) then rest + [MessageItem(WithUsage(last.message, u))]
      else AttachUsage(rest, u) + [last]
  }

  /** Append streamed text to a message, or do nothing if it is not listed. */
  function ApplyDelta(items: seq<Item>, id: string, text: string, reasoning: bool): seq<Item> {
    match Lookup(items, MessageKey(id))
    case Some(MessageItem(m)) =>
      Upsert(items, MessageItem(
        if reasoning then m.(reasoning := m.reasoning + text, streaming := true)
        else m.(text := m.text + text, streaming := true)))
    case _ => items
  }

  function EndStreaming(items: seq<Item>, id: string): seq<Item> {
    match Lookup(items, MessageKey(id))
    case Some(MessageItem(m)) => Upsert(items, MessageItem(m.(streaming := false)))
    case _ => items
  }

  /** One event: the new state, and the event as it is broadcast. */
  function Apply(c: Chat, p: Payload): (Chat, Payload) {
    match p
    case MessageEvent(m) => (c.(items := UpsertCapped(c.items, MessageItem(m))), p)
    case AssistantDelta(id, text) => (c.(items := ApplyDelta(c.items, id, text, false)), p)
    case ReasoningDelta(id, text) => (c.(items := ApplyDelta(c.items, id, text, true)), p)
    case AssistantEnd(id) => (c.(items := EndStreaming(c.items, id)), p)
    case ReasoningEnd(_) => (c, p)
    case ToolEvent(phase, t) =>
      var folded := FoldTool(Lookup(c.items, ToolKey(t.id)), t);
      (c.(items := UpsertCapped(c.items, ToolItem(folded))), ToolEvent(phase, folded))
    case TransferEvent(x) => (c.(items := UpsertCapped(c.items, TransferItem(x))), p)
    case NoticeEvent(n) => (c.(items := UpsertCapped(c.items, NoticeItem(n))), p)
    case SummaryEvent(_) => (c, p)
    case RunEvent(run) => (c.(run := run), p)
    case UsageEvent(usage, last) =>
      var items := match last case Some(u) => AttachUsage(c.items, u) case None => c.items;
      (c.(items := items, usage := usage), p)
    case MetaEvent(meta) =>
      var filled := meta.(executionTarget := OrElse(meta.executionTarget, c.meta.executionTarget),
                          chatId := c.id, workspaceId := c.workspaceId);
      (c.(meta := filled), MetaEvent(filled))
    case ChatClosed(_) => (c, p)
    case Bare => (c, p)
  }

  /** The state after a history of events. */
  function Run(c: Chat, events: seq<Payload>): Chat {
    if events == [] then c
    else Apply(Run(c, events[..|events| - 1]), events[|events| - 1]).0
  }

  // ------------------------------------------------------------- invariants

  lemma UpsertCappedKeepsDistinct(items: seq<Item>, it: Item)
    requires Distinct(items)
    ensures Distinct(UpsertCapped(items, it))
    ensures |UpsertCapped(items, it)| <= if |items| > MAX_ITEMS then |items| else MAX_ITEMS
  {
    LookupFinds(items, ItemId(it));
    if Lookup(items, ItemId(it)).None? {
      UpsertNew(items, it);
    } else {
      UpsertListed(items, it);
      hide ItemId;
    }
  }

  /** Rewriting a listed item in place keeps every identity where it was. */
  lemma UpsertListed(items: seq<Item>, it: Item)
    requires Distinct(items) && Lookup(items, ItemId(it)).Some?
    ensures Distinct(Upsert(items, it)) && |Upsert(items, it)| == |items|
    ensures forall i :: 0 <= i < |items| ==> ItemId(Upsert(items, it)[i]) == ItemId(items[i])
  {
    LookupFinds(items, ItemId(it));
    var pos :| 0 <= pos < |items| && ItemId(items[pos]) == ItemId(it);
    UpsertAt(items, it, pos);
  }

  lemma {:induction false} AttachUsageKeepsIds(items: seq<Item>, u: MessageUsage)
    ensures forall i :: 0 <= i < |items| ==> ItemId(AttachUsage(items, u)[i]) == ItemId(items[i])
    ensures forall i :: 0 <= i < |items| && !IsAssistant(items[i]) ==> AttachUsage(items, u)[i] == items[i]
  {
    if items != [] && !IsAssistant(items[|items| - 1]) {
      AttachUsageKeepsIds(items[..|items| - 1], u);
    }
  }

  lemma ApplyKeepsDistinct(c: Chat, p: Payload)
    requires Distinct(c.items) && |c.items| <= MAX_ITEMS
    ensures Distinct(Apply(c, p).0.items) && |Apply(c, p).0.items| <= MAX_ITEMS
  {
    match p
    case MessageEvent(m) => UpsertCappedKeepsDistinct(c.items, MessageItem(m));
    case AssistantDelta(id, text) => DeltaKeepsDistinct(c.items, id, text, false);
    case ReasoningDelta(id, text) => DeltaKeepsDistinct(c.items, id, text, true);
    case AssistantEnd(id) => EndKeepsDistinct(c.items, id);
    case ToolEvent(phase, t) =>
      UpsertCappedKeepsDistinct(c.items, ToolItem(FoldTool(Lookup(c.items, ToolKey(t.id)), t)));
    case TransferEvent(x) => UpsertCappedKeepsDistinct(c.items, TransferItem(x));
    case NoticeEvent(n) => UpsertCappedKeepsDistinct(c.items, NoticeItem(n));
    case UsageEvent(usage, last) => if last.Some? { AttachUsageKeepsIds(c.items, last.value); }
    case _ =>
  }

  lemma DeltaKeepsDistinct(items: seq<Item>, id: string, text: string, reasoning: bool)
    requires Distinct(items)
    ensures Distinct(ApplyDelta(items, id, text, reasoning)) && |ApplyDelta(items, id, text, reasoning)| == |items|
  {
    KeyFixesKind(items, id);
    match Lookup(items, MessageKey(id))
    case Some(MessageItem(m)) =>
      var patched := if reasoning then m.(reasoning := m.reasoning + text, streaming := true)
                     else m.(text := m.text + text, streaming := true);
      UpsertListed(items, MessageItem(patched));
    case _ =>
  }

  lemma EndKeepsDistinct(items: seq<Item>, id: string)
    requires Distinct(items)
    ensures Distinct(EndStreaming(items, id)) && |EndStreaming(items, id)| == |items|
  {
    KeyFixesKind(items, id);
    match Lookup(items, MessageKey(id))
    case Some(MessageItem(m)) => UpsertListed(items, MessageItem(m.(streaming := false)));
    case _ =>
  }

  /** Over every history the timeline lists distinct ids, at most 2000. */
  lemma {:induction false} RunKeepsDistinct(c: Chat, events: seq<Payload>)
    requires Distinct(c.items) && |c.items| <= MAX_ITEMS
    ensures Distinct(Run(c, events).items) && |Run(c, events).items| <= MAX_ITEMS
  {
    if events != [] {
      RunKeepsDistinct(c, events[..|events| - 1]);
      ApplyKeepsDistinct(Run(c, events[..|events| - 1]), events[|events| - 1]);
    }
  }

  // --------------------------------------------------------- what events say

  /** A known item is rewritten where it stands; a new one goes to the end, and
      the oldest goes when the timeline is full. */
  lemma UpsertCappedAt(items: seq<Item>, it: Item, i: nat)
    requires Distinct(items) && i < |UpsertCapped(items, it)|
    ensures var z := UpsertCapped(items, it);
            var listed := exists k :: 0 <= k < |items| && ItemId(items[k]) == ItemId(it);
            && (listed ==> |z| == |items| && z[i] == if ItemId(items[i]) == ItemId(it) then it else items[i])
            && (!listed && |items| < MAX_ITEMS ==> z == items + [it])
            && (!listed && |items| >= MAX_ITEMS ==> z == items[1..] + [it])
  {
    LookupFinds(items, ItemId(it));
    if Lookup(items, ItemId(it)).None? {
      UpsertNew(items, it);
    } else {
      var pos :| 0 <= pos < |items| && ItemId(items[pos]) == ItemId(it);
      UpsertAt(items, it, pos);
    }
  }

  /** `k` is where the newest assistant message stands. */
  ghost predicate NewestAssistant(items: seq<Item>, k: int) {
    && 0 <= k < |items| && items[k].MessageItem? && items[k].message.role == "assistant"
    && forall j :: k < j < |items| ==> !(items[j].MessageItem? && items[j].message.role == "assistant")
  }

  /** The accounting of one invocation goes to the newest assistant message, the
      model with it if it is named, and nothing else changes. */
  lemma {:induction false} UsageGoesToNewest(items: seq<Item>, u: MessageUsage, k: nat)
    requires k < |items|
    ensures AttachUsage(items, u)[k] ==
            if NewestAssistant(items, k) then
              MessageItem(items[k].message.(billing := u.billing,
                                            model := if u.model == "" then items[k].message.model else u.model))
            else items[k]
  {
    var rest, n := items[..|items| - 1], |items| - 1;
    if k < n && !IsAssistant(items[n]) {
      UsageGoesToNewest(rest, u, k);
      assert NewestAssistant(items, k) <==> NewestAssistant(rest, k);
    }
  }

  /** What is broadcast is the event itself, except that a tool is broadcast as
      it is stored, under the same phase, and the meta as it is kept. */
  lemma BroadcastSays(c: Chat, p: Payload)
    requires Distinct(c.items)
    ensures var (z, out) := Apply(c, p);
            match p
            case ToolEvent(phase, t) =>
              out.ToolEvent? && out.phase == phase && out.tool.id == t.id
              && Lookup(z.items, ToolKey(t.id)) == Some(ToolItem(out.tool))
            case MetaEvent(_) => out == MetaEvent(z.meta)
            case _ => out == p
  {
    if p.ToolEvent? {
      var folded := FoldTool(Lookup(c.items, ToolKey(p.tool.id)), p.tool);
      KeyFixesKind(c.items, p.tool.id);
      assert ItemId(ToolItem(folded)) == ToolKey(p.tool.id);
      UpsertCappedFinds(c.items, ToolItem(folded));
    }
  }

  lemma UpsertCappedFinds(items: seq<Item>, it: Item)
    requires Distinct(items)
    ensures Lookup(UpsertCapped(items, it), ItemId(it)) == Some(it)
  {
    LookupUpsert(items, it, ItemId(it));
    if Lookup(items, ItemId(it)).None? && |items| >= MAX_ITEMS {
      LookupFinds(items, ItemId(it));
      LookupFinds(items[1..], ItemId(it));
      UpsertNew(items[1..], it);
      LookupUpsert(items[1..], it, ItemId(it));
    }
  }

  function MetasOf(events: seq<Payload>): seq<Meta> {
    if events == [] then []
    else MetasOf(events[..|events| - 1])
         + if events[|events| - 1].MetaEvent? then [events[|events| - 1].meta] else []
  }

  /** The kept meta says what the last one said, with the chat's own ids and the
      last execution target that was named. */
  ghost predicate MetaSays(c: Chat, metas: seq<Meta>, m: Meta) {
    if metas == [] then m == c.meta
    else
      var last := metas[|metas| - 1];
      && m.title == last.title && m.model == last.model && m.sessionId == last.sessionId
      && m.chatId == c.id && m.workspaceId == c.workspaceId
      && TargetSays(c, metas, m.executionTarget)
  }

  ghost predicate TargetSays(c: Chat, metas: seq<Meta>, target: string) {
    if exists k :: 0 <= k < |metas| && metas[k].executionTarget != ""
    then exists k :: LastTarget(metas, k) && target == metas[k].executionTarget
    else target == c.meta.executionTarget
  }

  ghost predicate LastTarget(metas: seq<Meta>, k: int) {
    && 0 <= k < |metas| && metas[k].executionTarget != ""
    && forall j :: k < j < |metas| ==> metas[j].executionTarget == ""
  }

  lemma TargetSnoc(c: Chat, metas: seq<Meta>, target: string, m: Meta)
    requires TargetSays(c, metas, target)
    ensures TargetSays(c, metas + [m], if m.executionTarget == "" then target else m.executionTarget)
  {
    var all := metas + [m];
    assert all[|metas|] == m;
    if m.executionTarget != "" {
      assert LastTarget(all, |metas|);
    } else if k :| LastTarget(metas, k) && target == metas[k].executionTarget {
      assert LastTarget(all, k) && all[k].executionTarget != "";
    } else {
      assert forall k :: 0 <= k < |metas| ==> all[k] == metas[k];
    }
  }

  lemma MetaStep(c: Chat, p: Payload)
    ensures var z := Apply(c, p).0;
            && z.id == c.id && z.workspaceId == c.workspaceId
            && (!p.MetaEvent? ==> z.meta == c.meta)
            && (p.MetaEvent? ==>
                  && z.meta.title == p.meta.title && z.meta.model == p.meta.model
                  && z.meta.sessionId == p.meta.sessionId
                  && z.meta.chatId == c.id && z.meta.workspaceId == c.workspaceId
                  && z.meta.executionTarget ==
                     if p.meta.executionTarget == "" then c.meta.executionTarget else p.meta.executionTarget)
  {
    hide AttachUsage, UpsertCapped, FoldTool, ApplyDelta, EndStreaming, Lookup;
  }

  /** Over a whole history. */
  lemma {:induction false} MetaOverRun(c: Chat, events: seq<Payload>)
    ensures Run(c, events).id == c.id && Run(c, events).workspaceId == c.workspaceId
    ensures MetaSays(c, MetasOf(events), Run(c, events).meta)
  {
    if events != [] {
      hide Apply, TargetSays;
      var init, last := events[..|events| - 1], events[|events| - 1];
      MetaOverRun(c, init);
      MetaStep(Run(c, init), last);
      if last.MetaEvent? {
        NoTargets(c, MetasOf(init), Run(c, init).meta);
        TargetSnoc(c, MetasOf(init), Run(c, init).meta.executionTarget, last.meta);
      } else {
        assert MetasOf(init) + [] == MetasOf(init);
      }
    }
  }

  lemma NoTargets(c: Chat, metas: seq<Meta>, m: Meta)
    requires MetaSays(c, metas, m)
    ensures TargetSays(c, metas, m.executionTarget)
  {
  }
}
