/** The server folds the adapter's events, the browser folds what the server
    broadcasts. How far the two agree, and exactly when they part. */
module Simulation {
  import opened Common
  import opened Protocol
  import opened Timeline
  import opened Reducer

  // ------------------------------------------------- agreement up to erasure

  /** Forget the fields the two reducers are known to keep differently. */
  function EraseMessage(m: Message): Message {
    m.(streaming := false, billing := NO_BILLING, model := "")
  }

  function EraseTool(t: Tool): Tool {
    t.(preview := "", outputBytes := 0)
  }

  function Erase(it: Item): Item {
    match it
    case MessageItem(m) => MessageItem(EraseMessage(m))
    case ToolItem(t) => ToolItem(EraseTool(WireTool(t)))
    case _ => it
  }

  /** The timeline without summary items, each item erased. */
  function Core(items: seq<Item>): seq<Item> {
    if items == [] then []
    else (if items[0].SummaryItem? then [] else [Erase(items[0])]) + Core(items[1..])
  }

  lemma EraseKeepsId(it: Item)
    ensures ItemId(Erase(it)) == ItemId(it)
    ensures Erase(it).SummaryItem? <==> it.SummaryItem?
  {
  }

  /** Upserting commutes with forgetting, and a summary is forgotten. */
  lemma {:induction false} CoreUpsert(items: seq<Item>, it: Item)
    ensures Core(Upsert(items, it)) == if it.SummaryItem? then Core(items) else Upsert(Core(items), Erase(it))
  {
    EraseKeepsId(it);
    var up := Upsert(items, it);
    if items == [] {
      assert up[1..] == [];
    } else {
      EraseKeepsId(items[0]);
      if ItemId(items[0]) == ItemId(it) {
        assert up[1..] == items[1..];
        if !it.SummaryItem? {
          assert Core(items)[1..] == Core(items[1..]);
        }
      } else {
        assert up[1..] == Upsert(items[1..], it);
        CoreUpsert(items[1..], it);
        if items[0].SummaryItem? {
          assert Core(items) == Core(items[1..]) && Core(up) == Core(up[1..]);
        } else {
          assert Core(items)[1..] == Core(items[1..]);
        }
      }
    }
  }

  /** Forgetting keeps what is found under a key that is no summary's. */
  lemma {:induction false} CoreLookup(items: seq<Item>, key: Key)
    requires !key.SummaryKey?
    ensures Lookup(Core(items), key) ==
            match Lookup(items, key) case Some(it) => Some(Erase(it)) case None => None
  {
    if items != [] {
      EraseKeepsId(items[0]);
      CoreLookup(items[1..], key);
      if items[0].SummaryItem? {
        assert Core(items) == Core(items[1..]);
      } else {
        assert Core(items)[1..] == Core(items[1..]);
      }
    }
  }

  lemma {:induction false} CorePointwise(a: seq<Item>, b: seq<Item>)
    requires |a| == |b|
    requires forall i :: 0 <= i < |a| ==> Erase(a[i]) == Erase(b[i])
    ensures Core(a) == Core(b)
  {
    if a != [] {
      EraseKeepsId(a[0]);
      EraseKeepsId(b[0]);
      CorePointwise(a[1..], b[1..]);
    }
  }

  lemma {:induction false} AttachUsageErased(items: seq<Item>, u: MessageUsage)
    ensures forall i :: 0 <= i < |items| ==> Erase(AttachUsage(items, u)[i]) == Erase(items[i])
  {
    if items != [] && !IsAssistant(items[|items| - 1]) {
      AttachUsageErased(items[..|items| - 1], u);
    }
  }

  /** The two states agree on everything but the forgotten parts. */
  ghost predicate InStep(c: ChatState, s: Chat) {
    && Core(c.items) == Core(s.items)
    && c.meta == Some(s.meta) && c.run == s.run && c.usage == s.usage
  }

  /** No tool event carries an empty but present collection, which the wire
      would drop. */
  predicate Faithful(p: Payload) {
    p.ToolEvent? ==> p.tool.arguments != Some(map[]) && p.tool.images != Some([])
  }

  /** The timeline has room for whatever the event adds. */
  predicate HasRoom(items: seq<Item>, p: Payload) {
    match Subject(p)
    case None => true
    case Some(key) => Lookup(items, key).Some? || |items| < MAX_ITEMS
  }

  /** The identity of the item an event inserts on the server, if any. */
  function Subject(p: Payload): Option<Key> {
    match p
    case MessageEvent(m) => Some(MessageKey(m.id))
    case ToolEvent(_, t) => Some(ToolKey(t.id))
    case TransferEvent(x) => Some(ItemId(TransferItem(x)))
    case NoticeEvent(n) => Some(ItemId(NoticeItem(n)))
    case _ => None
  }

  /** What the server broadcasts for an event, as it arrives. */
  function Broadcast(s: Chat, p: Payload): Payload { Wire(Apply(s, p).1) }

  lemma DeltaInStep(a: seq<Item>, b: seq<Item>, id: string, text: string, reasoning: bool)
    requires Core(a) == Core(b)
    ensures Core(PatchText(a, id, if reasoning then "" else text, if reasoning then text else "", true))
            == Core(ApplyDelta(b, id, text, reasoning))
  {
    KeyFixesKind(a, id);
    KeyFixesKind(b, id);
    CoreLookup(a, MessageKey(id));
    CoreLookup(b, MessageKey(id));
    match Lookup(a, MessageKey(id))
    case Some(MessageItem(m)) =>
      var n := Lookup(b, MessageKey(id)).value.message;
      assert m.text + "" == m.text && m.reasoning + "" == m.reasoning;
      CoreUpsert(a, MessageItem(m.(text := m.text + if reasoning then "" else text,
                                   reasoning := m.reasoning + if reasoning then text else "", streaming := true)));
      CoreUpsert(b, MessageItem(if reasoning then n.(reasoning := n.reasoning + text, streaming := true)
                                else n.(text := n.text + text, streaming := true)));
    case _ =>
  }

  lemma EndInStep(a: seq<Item>, b: seq<Item>, id: string)
    requires Core(a) == Core(b)
    ensures Core(PatchText(a, id, "", "", false)) == Core(b)
    ensures Core(PatchText(a, id, "", "", false)) == Core(EndStreaming(b, id))
  {
    PatchErased(a, id);
    KeyFixesKind(b, id);
    match Lookup(b, MessageKey(id))
    case Some(MessageItem(m)) =>
      CoreUpsert(b, MessageItem(m.(streaming := false)));
      CoreLookup(b, MessageKey(id));
      UpsertFound(Core(b), Erase(MessageItem(m)));
    case _ =>
  }

  lemma {:induction false} UpsertFound(items: seq<Item>, it: Item)
    requires Lookup(items, ItemId(it)) == Some(it)
    ensures Upsert(items, it) == items
  {
    if ItemId(items[0]) != ItemId(it) {
      UpsertFound(items[1..], it);
    }
  }

  lemma PatchErased(a: seq<Item>, id: string)
    ensures Core(PatchText(a, id, "", "", false)) == Core(a)
  {
    KeyFixesKind(a, id);
    match Lookup(a, MessageKey(id))
    case Some(MessageItem(m)) =>
      assert m.text + "" == m.text && m.reasoning + "" == m.reasoning;
      CoreUpsert(a, MessageItem(m.(text := m.text + "", reasoning := m.reasoning + "", streaming := false)));
      CoreLookup(a, MessageKey(id));
      UpsertFound(Core(a), Erase(MessageItem(m)));
    case _ =>
  }

  lemma ClientToolErased(cur: Tool, known: Tool, t: Tool, appendPreview: bool)
    requires EraseTool(WireTool(cur)) == EraseTool(WireTool(known))
    requires t.arguments != Some(map[]) && t.images != Some([])
    ensures var folded := FoldTool(Some(ToolItem(known)), t);
            t.id == known.id ==>
            EraseTool(WireTool(ClientTool(cur, WireTool(folded), appendPreview))) == EraseTool(WireTool(folded))
  {
  }

  lemma ToolInStep(a: seq<Item>, b: seq<Item>, t: Tool, phase: ToolPhase)
    requires Core(a) == Core(b)
    requires t.arguments != Some(map[]) && t.images != Some([])
    requires Lookup(b, ToolKey(t.id)).Some? || |b| < MAX_ITEMS
    ensures var folded := FoldTool(Lookup(b, ToolKey(t.id)), t);
            Core(UpsertTool(a, WireTool(folded), phase.Update?)) == Core(UpsertCapped(b, ToolItem(folded)))
  {
    var key := ToolKey(t.id);
    KeyFixesKind(a, t.id);
    KeyFixesKind(b, t.id);
    CoreLookup(a, key);
    CoreLookup(b, key);
    var folded := FoldTool(Lookup(b, key), t);
    FoldToolKeepsId(b, t);
    match Lookup(a, key)
    case Some(ToolItem(cur)) =>
      var stored := ClientTool(cur, WireTool(folded), phase.Update?);
      ClientToolErased(cur, Lookup(b, key).value.tool, t, phase.Update?);
      ItemsInStep(a, b, ToolItem(stored), ToolItem(folded));
    case _ =>
      UpsertNew(a, ToolItem(WireTool(folded)));
      ItemsInStep(a, b, ToolItem(WireTool(folded)), ToolItem(folded));
  }

  lemma FoldToolKeepsId(items: seq<Item>, t: Tool)
    ensures FoldTool(Lookup(items, ToolKey(t.id)), t).id == t.id
  {
    KeyFixesKind(items, t.id);
  }

  lemma ItemsInStep(a: seq<Item>, b: seq<Item>, x: Item, y: Item)
    requires Core(a) == Core(b) && Erase(x) == Erase(y)
    requires Lookup(b, ItemId(y)).Some? || |b| < MAX_ITEMS
    ensures Core(Upsert(a, x)) == Core(UpsertCapped(b, y))
  {
    EraseKeepsId(x);
    EraseKeepsId(y);
    CoreUpsert(a, x);
    CoreUpsert(b, y);
  }

  lemma ItemInStep(a: seq<Item>, b: seq<Item>, it: Item)
    requires Core(a) == Core(b)
    requires Lookup(b, ItemId(it)).Some? || |b| < MAX_ITEMS
    ensures Core(Upsert(a, it)) == Core(UpsertCapped(b, it))
  {
    ItemsInStep(a, b, it, it);
  }

  /** One event keeps the two folds in step. */
  lemma StepInStep(c: ChatState, s: Chat, p: Payload, n: nat)
    requires InStep(c, s) && Faithful(p) && HasRoom(s.items, p)
    ensures InStep(ReduceEvent(c, n, Broadcast(s, p)), Apply(s, p).0)
    ensures ReduceEvent(c, n, Broadcast(s, p)).seqNo == n
  {
    hide FoldTool, UpsertCapped, Upsert, Lookup, AttachUsage, Core;
    match p
    case MessageEvent(m) => ItemInStep(c.items, s.items, MessageItem(m));
    case AssistantDelta(id, text) => DeltaInStep(c.items, s.items, id, text, false);
    case ReasoningDelta(id, text) => DeltaInStep(c.items, s.items, id, text, true);
    case AssistantEnd(id) => EndInStep(c.items, s.items, id);
    case ReasoningEnd(id) => EndInStep(c.items, s.items, id);
    case ToolEvent(phase, t) => ToolInStep(c.items, s.items, t, phase);
    case TransferEvent(x) => ItemInStep(c.items, s.items, TransferItem(x));
    case NoticeEvent(x) => ItemInStep(c.items, s.items, NoticeItem(x));
    case SummaryEvent(x) => CoreUpsert(c.items, SummaryItem(x));
    case UsageEvent(usage, last) =>
      if last.Some? {
        AttachUsageErased(s.items, last.value);
        CorePointwise(AttachUsage(s.items, last.value), s.items);
      }
    case _ =>
  }

  // ------------------------------------------------------- whole histories

  function Ids(items: seq<Item>): set<Key> {
    set i | 0 <= i < |items| :: ItemId(items[i])
  }

  function SubjectSet(p: Payload): set<Key> {
    match Subject(p) case Some(key) => {key} case None => {}
  }

  /** Every id the server's timeline ever lists. */
  function AllIds(s: Chat, events: seq<Payload>): set<Key> {
    if events == [] then Ids(s.items)
    else AllIds(s, events[..|events| - 1]) + SubjectSet(events[|events| - 1])
  }

  lemma IdsAppend(items: seq<Item>, it: Item)
    ensures Ids(items + [it]) == Ids(items) + {ItemId(it)}
  {
    var all := items + [it];
    assert ItemId(all[|items|]) == ItemId(it);
    forall i | 0 <= i < |items| ensures ItemId(items[i]) in Ids(all) {
      assert all[i] == items[i];
    }
  }

  lemma {:induction false} IdsCount(items: seq<Item>)
    requires Distinct(items)
    ensures |Ids(items)| == |items|
  {
    if items != [] {
      var rest, last := items[..|items| - 1], items[|items| - 1];
      IdsCount(rest);
      IdsAppend(rest, last);
      assert items == rest + [last];
      assert ItemId(last) !in Ids(rest);
    }
  }

  lemma UpsertIds(items: seq<Item>, it: Item)
    requires Distinct(items)
    ensures Ids(UpsertCapped(items, it)) <= Ids(items) + {ItemId(it)}
    ensures Lookup(items, ItemId(it)).Some? ==> Ids(Upsert(items, it)) == Ids(items)
  {
    LookupFinds(items, ItemId(it));
    if Lookup(items, ItemId(it)).Some? {
      UpsertListed(items, it);
    } else {
      UpsertNew(items, it);
    }
  }

  lemma ApplyIds(s: Chat, p: Payload)
    requires Distinct(s.items)
    ensures Ids(Apply(s, p).0.items) <= Ids(s.items) + SubjectSet(p)
  {
    match p
    case MessageEvent(m) => UpsertIds(s.items, MessageItem(m));
    case AssistantDelta(id, text) => DeltaIds(s.items, id, text, false);
    case ReasoningDelta(id, text) => DeltaIds(s.items, id, text, true);
    case AssistantEnd(id) => EndIds(s.items, id);
    case ToolEvent(phase, t) =>
      FoldToolKeepsId(s.items, t);
      UpsertIds(s.items, ToolItem(FoldTool(Lookup(s.items, ToolKey(t.id)), t)));
    case TransferEvent(x) => UpsertIds(s.items, TransferItem(x));
    case NoticeEvent(x) => UpsertIds(s.items, NoticeItem(x));
    case UsageEvent(usage, last) => if last.Some? { AttachUsageKeepsIds(s.items, last.value); }
    case _ =>
  }

  lemma DeltaIds(items: seq<Item>, id: string, text: string, reasoning: bool)
    requires Distinct(items)
    ensures Ids(ApplyDelta(items, id, text, reasoning)) == Ids(items)
  {
    KeyFixesKind(items, id);
    match Lookup(items, MessageKey(id))
    case Some(MessageItem(m)) =>
      UpsertIds(items, MessageItem(if reasoning then m.(reasoning := m.reasoning + text, streaming := true)
                                   else m.(text := m.text + text, streaming := true)));
    case _ =>
  }

  lemma EndIds(items: seq<Item>, id: string)
    requires Distinct(items)
    ensures Ids(EndStreaming(items, id)) == Ids(items)
  {
    KeyFixesKind(items, id);
    match Lookup(items, MessageKey(id))
    case Some(MessageItem(m)) => UpsertIds(items, MessageItem(m.(streaming := false)));
    case _ =>
  }

  lemma {:induction false} RunIds(s: Chat, events: seq<Payload>)
    requires Distinct(s.items) && |s.items| <= MAX_ITEMS
    ensures Ids(Run(s, events).items) <= AllIds(s, events)
  {
    if events != [] {
      var prefix := events[..|events| - 1];
      RunIds(s, prefix);
      RunKeepsDistinct(s, prefix);
      ApplyIds(Run(s, prefix), events[|events| - 1]);
    }
  }

  lemma NewKeyFits(items: seq<Item>, key: Key, all: set<Key>)
    requires Distinct(items) && Lookup(items, key).None?
    requires Ids(items) + {key} <= all && |all| <= MAX_ITEMS
    ensures |items| < MAX_ITEMS
  {
    LookupFinds(items, key);
    IdsCount(items);
    assert key !in Ids(items);
    SubsetCount(Ids(items) + {key}, all);
  }

  /** While at most 2000 ids are ever listed, nothing is dropped. */
  lemma RoomInHistory(s: Chat, events: seq<Payload>)
    requires Distinct(s.items) && |s.items| <= MAX_ITEMS
    requires events != [] && |AllIds(s, events)| <= MAX_ITEMS
    ensures HasRoom(Run(s, events[..|events| - 1]).items, events[|events| - 1])
    ensures |AllIds(s, events[..|events| - 1])| <= MAX_ITEMS
  {
    var prefix, last := events[..|events| - 1], events[|events| - 1];
    var items, subject := Run(s, prefix).items, Subject(last);
    RunKeepsDistinct(s, prefix);
    RunIds(s, prefix);
    SubsetCount(AllIds(s, prefix), AllIds(s, events));
    if subject.Some? {
      assert SubjectSet(last) == {subject.value};
      if Lookup(items, subject.value).None? {
        NewKeyFits(items, subject.value, AllIds(s, events));
      }
    }
  }

  /** What the server broadcasts over a history, numbered from `n` on. */
  function Frames(s: Chat, n: nat, events: seq<Payload>): (r: seq<Frame>)
    ensures |r| == |events|
  {
    if events == [] then []
    else
      var prefix, last := events[..|events| - 1], events[|events| - 1];
      Frames(s, n, prefix) + [EventFrame(n + |events|, Broadcast(Run(s, prefix), last))]
  }

  /** For every history over at most 2000 ids, folding the broadcasts in the
      browser stays in step with folding the events on the server. */
  lemma {:induction false} FoldsInStep(c: ChatState, s: Chat, events: seq<Payload>)
    requires Distinct(s.items) && |s.items| <= MAX_ITEMS
    requires InStep(c, s)
    requires |AllIds(s, events)| <= MAX_ITEMS
    requires forall i :: 0 <= i < |events| ==> Faithful(events[i])
    ensures var r := ReduceAll(c, Frames(s, c.seqNo, events));
            InStep(r, Run(s, events)) && r.seqNo == c.seqNo + |events|
  {
    hide InStep, Apply, ReduceEvent, HasRoom, Distinct, Broadcast;
    if events != [] {
      var prefix, last := events[..|events| - 1], events[|events| - 1];
      RoomInHistory(s, events);
      FoldsInStep(c, s, prefix);
      var frames := Frames(s, c.seqNo, events);
      assert frames[..|frames| - 1] == Frames(s, c.seqNo, prefix);
      StepInStep(ReduceAll(c, Frames(s, c.seqNo, prefix)), Run(s, prefix), last, c.seqNo + |events|);
    }
  }

  /** A snapshot starts in step with the state it was taken of. */
  lemma SnapshotInStep(s: Chat, n: nat)
    ensures InStep(ApplySnapshot(Snapshot(n, s)), s)
  {
    CorePointwise(WireItems(s.items), s.items);
  }

  // --------------------------------------------------------- exact agreement

  function LastAssistant(items: seq<Item>): Option<Message> {
    if items == [] then None
    else if IsAssistant(items[|items| - 1]) then Some(items[|items| - 1].message)
    else LastAssistant(items[..|items| - 1])
  }

  predicate Absent<T(==)>(value: Option<T>, empty: T) { value == None || value == Some(empty) }

  /** An update must find no output to append to, and no event may present an
      empty collection where one is known. */
  predicate ToolAgrees(cur: Tool, t: Tool, phase: ToolPhase) {
    && (phase.Update? ==> cur.preview == "" && cur.outputBytes == 0)
    && (t.arguments == Some(map[]) ==> Absent(cur.arguments, map[]))
    && (t.images == Some([]) ==> Absent(cur.images, []))
  }

  /** The condition under which one event leaves the browser with exactly the
      state a snapshot would give it. */
  predicate Agreeing(s: Chat, p: Payload) {
    HasRoom(s.items, p) &&
    match p
    case ReasoningEnd(id) =>
      (match Lookup(s.items, MessageKey(id)) case Some(MessageItem(m)) => !m.streaming case _ => true)
    case ToolEvent(phase, t) =>
      (match Lookup(s.items, ToolKey(t.id))
       case Some(ToolItem(cur)) => ToolAgrees(cur, t, phase)
       case _ => true)
    case SummaryEvent(x) => Lookup(s.items, ItemId(SummaryItem(x))) == Some(SummaryItem(x))
    case UsageEvent(_, Some(u)) =>
      (match LastAssistant(s.items) case Some(m) => WithUsage(m, u) == m case None => true)
    case ChatClosed(_) => false
    case _ => true
  }

  lemma WireKeepsId(it: Item)
    ensures ItemId(WireItem(it)) == ItemId(it)
  {
  }

  lemma {:induction false} WireLookup(items: seq<Item>, key: Key)
    ensures Lookup(WireItems(items), key) ==
            match Lookup(items, key) case Some(it) => Some(WireItem(it)) case None => None
  {
    if items != [] {
      WireKeepsId(items[0]);
      WireLookup(items[1..], key);
      assert WireItems(items)[1..] == WireItems(items[1..]);
    }
  }

  lemma WireCons(x: Item, rest: seq<Item>)
    ensures WireItems([x] + rest) == [WireItem(x)] + WireItems(rest)
  {
    hide WireItem;
  }

  lemma {:induction false} WireUpsert(items: seq<Item>, it: Item)
    ensures WireItems(Upsert(items, it)) == Upsert(WireItems(items), WireItem(it))
  {
    hide WireItem, ItemId, WireItems;
    WireKeepsId(it);
    if items == [] {
      WireCons(it, []);
      assert [it] + [] == [it];
    } else {
      WireKeepsId(items[0]);
      WireCons(items[0], items[1..]);
      assert [items[0]] + items[1..] == items;
      var wired := WireItems(items);
      assert wired[1..] == WireItems(items[1..]);
      if ItemId(items[0]) == ItemId(it) {
        WireCons(it, items[1..]);
      } else {
        WireUpsert(items[1..], it);
        WireCons(items[0], Upsert(items[1..], it));
      }
    }
  }

  lemma UpsertSame(items: seq<Item>, a: Item, b: Item)
    requires ItemId(a) == ItemId(b)
    ensures Upsert(items, a) == Upsert(items, b) <==> a == b
    ensures Upsert(items, a) == items <==> Lookup(items, ItemId(a)) == Some(a)
  {
    LookupUpsert(items, a, ItemId(a));
    LookupUpsert(items, b, ItemId(a));
    if Lookup(items, ItemId(a)) == Some(a) { UpsertFound(items, a); }
  }

  /** A new item makes the two lists differ exactly when the server is full. */
  lemma WireUpsertCapped(items: seq<Item>, it: Item)
    requires |items| <= MAX_ITEMS
    ensures WireItems(UpsertCapped(items, it)) == Upsert(WireItems(items), WireItem(it))
            <==> Lookup(items, ItemId(it)).Some? || |items| < MAX_ITEMS
  {
    WireUpsert(items, it);
    if Lookup(items, ItemId(it)).None? {
      UpsertNew(items, it);
    }
  }

  lemma PatchExact(items: seq<Item>, id: string, text: string, reasoning: bool)
    ensures PatchText(WireItems(items), id, if reasoning then "" else text, if reasoning then text else "", true)
            == WireItems(ApplyDelta(items, id, text, reasoning))
    ensures PatchText(WireItems(items), id, "", "", false) == WireItems(EndStreaming(items, id))
  {
    KeyFixesKind(items, id);
    WireLookup(items, MessageKey(id));
    match Lookup(items, MessageKey(id))
    case Some(MessageItem(m)) =>
      assert m.text + "" == m.text && m.reasoning + "" == m.reasoning;
      WireUpsert(items, MessageItem(if reasoning then m.(reasoning := m.reasoning + text, streaming := true)
                                    else m.(text := m.text + text, streaming := true)));
      WireUpsert(items, MessageItem(m.(streaming := false)));
    case _ =>
  }

  lemma ReasoningEndExact(items: seq<Item>, id: string)
    ensures PatchText(WireItems(items), id, "", "", false) == WireItems(items)
            <==> match Lookup(items, MessageKey(id)) case Some(MessageItem(m)) => !m.streaming case _ => true
  {
    KeyFixesKind(items, id);
    WireLookup(items, MessageKey(id));
    match Lookup(items, MessageKey(id))
    case Some(MessageItem(m)) =>
      assert m.text + "" == m.text && m.reasoning + "" == m.reasoning;
      var ended := MessageItem(m.(streaming := false));
      UpsertSame(WireItems(items), ended, ended);
    case _ =>
  }

  lemma AppendNothing(a: string, b: string)
    ensures a + b == b <==> a == ""
  {
    if a + b == b { assert |a + b| == |a| + |b|; }
  }

  lemma ClientToolExact(cur: Tool, t: Tool, phase: ToolPhase)
    requires cur.id == t.id
    ensures var folded := FoldTool(Some(ToolItem(cur)), t);
            ClientTool(WireTool(cur), WireTool(folded), phase.Update?) == WireTool(folded)
            <==> ToolAgrees(cur, t, phase)
  {
    AppendNothing(cur.preview, FoldTool(Some(ToolItem(cur)), t).preview);
  }

  lemma KnownToolExact(items: seq<Item>, cur: Tool, x: Tool, phase: ToolPhase)
    requires |items| <= MAX_ITEMS
    requires cur.id == x.id && Lookup(items, ToolKey(x.id)) == Some(ToolItem(cur))
    ensures UpsertTool(WireItems(items), WireTool(x), phase.Update?) == WireItems(UpsertCapped(items, ToolItem(x)))
            <==> ClientTool(WireTool(cur), WireTool(x), phase.Update?) == WireTool(x)
  {
    var stored := ToolItem(ClientTool(WireTool(cur), WireTool(x), phase.Update?));
    WireLookup(items, ToolKey(x.id));
    WireUpsert(items, ToolItem(x));
    UpsertSame(WireItems(items), stored, ToolItem(WireTool(x)));
  }

  lemma NewToolExact(items: seq<Item>, x: Tool, phase: ToolPhase)
    requires |items| <= MAX_ITEMS && Lookup(items, ToolKey(x.id)).None?
    ensures UpsertTool(WireItems(items), WireTool(x), phase.Update?) == WireItems(UpsertCapped(items, ToolItem(x)))
            <==> |items| < MAX_ITEMS
  {
    WireLookup(items, ToolKey(x.id));
    WireUpsertCapped(items, ToolItem(x));
    UpsertNew(WireItems(items), ToolItem(WireTool(x)));
  }

  lemma ToolExact(items: seq<Item>, t: Tool, phase: ToolPhase)
    requires |items| <= MAX_ITEMS
    ensures var known := Lookup(items, ToolKey(t.id));
            var folded := FoldTool(known, t);
            UpsertTool(WireItems(items), WireTool(folded), phase.Update?)
            == WireItems(UpsertCapped(items, ToolItem(folded)))
            <==> match known
                 case Some(ToolItem(cur)) => ToolAgrees(cur, t, phase)
                 case _ => |items| < MAX_ITEMS
  {
    var known := Lookup(items, ToolKey(t.id));
    FoldToolKeepsId(items, t);
    KeyFixesKind(items, t.id);
    match known
    case Some(ToolItem(cur)) =>
      ClientToolExact(cur, t, phase);
      KnownToolExact(items, cur, FoldTool(known, t), phase);
    case _ =>
      NewToolExact(items, FoldTool(known, t), phase);
  }

  lemma SummaryExact(items: seq<Item>, x: Summary)
    ensures Upsert(WireItems(items), SummaryItem(x)) == WireItems(items)
            <==> Lookup(items, ItemId(SummaryItem(x))) == Some(SummaryItem(x))
  {
    var key := ItemId(SummaryItem(x));
    WireLookup(items, key);
    UpsertSame(WireItems(items), SummaryItem(x), SummaryItem(x));
  }

  lemma {:induction false} UsageExact(items: seq<Item>, u: MessageUsage)
    ensures WireItems(AttachUsage(items, u)) == WireItems(items)
            <==> match LastAssistant(items) case Some(m) => WithUsage(m, u) == m case None => true
  {
    if items != [] {
      var rest, last := items[..|items| - 1], items[|items| - 1];
      var a, b := WireItems(AttachUsage(items, u)), WireItems(items);
      assert items == rest + [last];
      if IsAssistant(last) {
        if WithUsage(last.message, u) != last.message {
          assert a[|items| - 1] != b[|items| - 1];
        } else {
          assert AttachUsage(items, u) == items;
        }
      } else {
        UsageExact(rest, u);
        assert a[..|items| - 1] == WireItems(AttachUsage(rest, u));
        assert b[..|items| - 1] == WireItems(rest);
        if a[..|items| - 1] == b[..|items| - 1] {
          assert a == a[..|items| - 1] + [WireItem(last)];
          assert b == b[..|items| - 1] + [WireItem(last)];
        }
      }
    }
  }

  /** The broadcast leaves the browser what a snapshot of the new state would. */
  predicate StaysExact(s: Chat, p: Payload, n: nat) {
    ReduceEvent(ApplySnapshot(Snapshot(n, s)), n + 1, Broadcast(s, p))
    == ApplySnapshot(Snapshot(n + 1, Apply(s, p).0))
  }

  lemma MessageStepExact(s: Chat, p: Payload, n: nat)
    requires Distinct(s.items) && |s.items| <= MAX_ITEMS
    requires p.MessageEvent? || p.AssistantDelta? || p.ReasoningDelta? || p.AssistantEnd? || p.ReasoningEnd?
    ensures StaysExact(s, p, n) <==> Agreeing(s, p)
  {
    hide UpsertCapped, Upsert, Lookup, ApplyDelta, EndStreaming, PatchText, WireItems;
    match p
    case MessageEvent(m) => WireUpsertCapped(s.items, MessageItem(m));
    case AssistantDelta(id, text) => PatchExact(s.items, id, text, false);
    case ReasoningDelta(id, text) => PatchExact(s.items, id, text, true);
    case AssistantEnd(id) => PatchExact(s.items, id, "", false);
    case ReasoningEnd(id) => ReasoningEndExact(s.items, id);
  }

  lemma ToolStepExact(s: Chat, p: Payload, n: nat)
    requires Distinct(s.items) && |s.items| <= MAX_ITEMS && p.ToolEvent?
    ensures StaysExact(s, p, n) <==> Agreeing(s, p)
  {
    hide FoldTool, UpsertCapped, Upsert, Lookup, ToolAgrees, UpsertTool, WireItems, WireTool;
    ToolExact(s.items, p.tool, p.phase);
    KeyFixesKind(s.items, p.tool.id);
  }

  /** From an exact copy, one broadcast leaves an exact copy if and only if the
      event agrees with the state. */
  lemma OneStepExact(s: Chat, p: Payload, n: nat)
    requires Distinct(s.items) && |s.items| <= MAX_ITEMS
    ensures ReduceEvent(ApplySnapshot(Snapshot(n, s)), n + 1, Broadcast(s, p))
            == ApplySnapshot(Snapshot(n + 1, Apply(s, p).0))
            <==> Agreeing(s, p)
  {
    hide FoldTool, UpsertCapped, Upsert, Lookup, AttachUsage, ToolAgrees, LastAssistant, Distinct;
    match p
    case ToolEvent(phase, t) => ToolStepExact(s, p, n);
    case TransferEvent(x) => WireUpsertCapped(s.items, TransferItem(x));
    case NoticeEvent(x) => WireUpsertCapped(s.items, NoticeItem(x));
    case SummaryEvent(x) => SummaryExact(s.items, x);
    case UsageEvent(usage, last) => if last.Some? { UsageExact(s.items, last.value); }
    case RunEvent(_) =>
    case MetaEvent(_) =>
    case ChatClosed(_) =>
    case Bare =>
    case _ => MessageStepExact(s, p, n);
  }

  /** The events on which the two reducers never differ while there is room. */
  predicate Plain(p: Payload) {
    && Faithful(p)
    && !p.ReasoningEnd? && !p.SummaryEvent? && !p.ChatClosed?
    && !(p.ToolEvent? && p.phase.Update?)
    && !(p.UsageEvent? && p.lastMessage.Some?)
  }

  /** On plain histories over at most 2000 ids the browser holds exactly what a
      fresh snapshot of the server would give it. */
  lemma {:induction false} PlainHistoryExact(s: Chat, n: nat, events: seq<Payload>)
    requires Distinct(s.items) && |s.items| <= MAX_ITEMS
    requires |AllIds(s, events)| <= MAX_ITEMS
    requires forall i :: 0 <= i < |events| ==> Plain(events[i])
    ensures ReduceAll(ApplySnapshot(Snapshot(n, s)), Frames(s, n, events))
            == ApplySnapshot(Snapshot(n + |events|, Run(s, events)))
  {
    if events != [] {
      var prefix, last := events[..|events| - 1], events[|events| - 1];
      RoomInHistory(s, events);
      PlainHistoryExact(s, n, prefix);
      RunKeepsDistinct(s, prefix);
      var frames := Frames(s, n, events);
      assert frames[..|frames| - 1] == Frames(s, n, prefix);
      OneStepExact(Run(s, prefix), last, n + |prefix|);
    }
  }

  /** After the first `k` events the browser holds exactly what a fresh snapshot
      would give it. */
  ghost predicate Mirrors(s: Chat, n: nat, events: seq<Payload>, k: nat)
    requires k <= |events|
  {
    ReduceAll(ApplySnapshot(Snapshot(n, s)), Frames(s, n, events[..k]))
    == ApplySnapshot(Snapshot(n + k, Run(s, events[..k])))
  }

  lemma MirrorStep(s: Chat, n: nat, events: seq<Payload>, k: nat)
    requires Distinct(s.items) && |s.items| <= MAX_ITEMS && k < |events|
    requires Mirrors(s, n, events, k)
    ensures Mirrors(s, n, events, k + 1) <==> Agreeing(Run(s, events[..k]), events[k])
  {
    hide Agreeing, Apply, ReduceEvent, ApplySnapshot, Distinct, Broadcast;
    var now := events[..k + 1];
    assert now[..k] == events[..k] && now[k] == events[k];
    RunKeepsDistinct(s, events[..k]);
    OneStepExact(Run(s, events[..k]), events[k], n + k);
    var frames := Frames(s, n, now);
    assert frames[..|frames| - 1] == Frames(s, n, events[..k]);
    SnapshotNumber(n + k, Run(s, events[..k]));
  }

  lemma SnapshotNumber(n: nat, s: Chat)
    ensures ApplySnapshot(Snapshot(n, s)).seqNo == n
  {
  }

  /** Over any history: the browser equals a fresh snapshot after every prefix
      if and only if every event agrees with the state before it. */
  lemma {:induction false} HistoryExactIff(s: Chat, n: nat, events: seq<Payload>)
    requires Distinct(s.items) && |s.items| <= MAX_ITEMS
    ensures (forall k :: 0 <= k <= |events| ==> Mirrors(s, n, events, k))
            <==> forall k :: 0 <= k < |events| ==> Agreeing(Run(s, events[..k]), events[k])
  {
    hide Agreeing, Mirrors, Distinct, Run;
    if forall k :: 0 <= k <= |events| ==> Mirrors(s, n, events, k) {
      forall k | 0 <= k < |events| ensures Agreeing(Run(s, events[..k]), events[k]) {
        assert Mirrors(s, n, events, k) && Mirrors(s, n, events, k + 1);
        MirrorStep(s, n, events, k);
      }
    }
    if forall k :: 0 <= k < |events| ==> Agreeing(Run(s, events[..k]), events[k]) {
      forall k | 0 <= k <= |events| ensures Mirrors(s, n, events, k) {
        MirrorsUpTo(s, n, events, k);
      }
    }
  }

  lemma {:induction false} MirrorsUpTo(s: Chat, n: nat, events: seq<Payload>, k: nat)
    requires Distinct(s.items) && |s.items| <= MAX_ITEMS && k <= |events|
    requires forall i :: 0 <= i < k ==> Agreeing(Run(s, events[..i]), events[i])
    ensures Mirrors(s, n, events, k)
  {
    if k == 0 {
      assert events[..0] == [];
    } else {
      hide Agreeing, Mirrors, Distinct, Run;
      MirrorsUpTo(s, n, events, k - 1);
      MirrorStep(s, n, events, k - 1);
    }
  }

  /** A history of one event that presents an empty argument map is enough to
      part them: the server forgets the known arguments, the browser keeps them. */
  lemma EmptyArgumentsPart(s: Chat, known: Tool, n: nat)
    requires s.items == [ToolItem(known)] && known.arguments.Some? && known.arguments.value != map[]
    ensures var p := ToolEvent(End, known.(arguments := Some(map[])));
            && !Faithful(p)
            && ReduceEvent(ApplySnapshot(Snapshot(n, s)), n + 1, Broadcast(s, p))
               != ApplySnapshot(Snapshot(n + 1, Apply(s, p).0))
  {
    var p := ToolEvent(End, known.(arguments := Some(map[])));
    assert Lookup(s.items, ToolKey(known.id)) == Some(ToolItem(known));
    OneStepExact(s, p, n);
  }
}
