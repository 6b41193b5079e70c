/** One live chat on the server: its timeline with an id index, its event log
    and its subscribers, updated in place by one method per lock section. */
module LiveChats {
  import opened Protocol
  import opened Preview
  import opened Timeline
  import opened ToolPreview
  import opened Reducer
  import opened EventLog
  import opened EventHub

  const EVENT_LOG_CAPACITY := 1024
  const CHANNEL_ROOM := 256

  /** The index maps each listed id to its position and nothing else. */
  ghost predicate IndexOk(items: seq<Item>, index: map<Key, int>) {
    && (forall i :: 0 <= i < |items| ==> ItemId(items[i]) in index && index[ItemId(items[i])] == i)
    && (forall key :: key in index ==> 0 <= index[key] < |items| && ItemId(items[index[key]]) == key)
  }

  lemma IndexIsLookup(items: seq<Item>, index: map<Key, int>, key: Key)
    requires IndexOk(items, index)
    ensures Distinct(items)
    ensures Lookup(items, key) == if key in index then Some(items[index[key]]) else None
  {
    LookupFinds(items, key);
    if key in index {
      UpsertAt(items, items[index[key]], index[key]);
    }
  }

  /** Writing through the index is the scan's replacement. */
  lemma IndexedWrite(items: seq<Item>, index: map<Key, int>, it: Item)
    requires IndexOk(items, index) && ItemId(it) in index
    ensures items[index[ItemId(it)] := it] == Upsert(items, it)
    ensures IndexOk(Upsert(items, it), index)
  {
    IndexIsLookup(items, index, ItemId(it));
    UpsertAt(items, it, index[ItemId(it)]);
  }

  lemma IndexAppend(items: seq<Item>, index: map<Key, int>, it: Item)
    requires IndexOk(items, index) && ItemId(it) !in index
    ensures IndexOk(items + [it], index[ItemId(it) := |items|])
  {
    var all, wider := items + [it], index[ItemId(it) := |items|];
    forall i | 0 <= i < |all| ensures ItemId(all[i]) in wider && wider[ItemId(all[i])] == i {
      if i < |items| { assert all[i] == items[i] && ItemId(items[i]) in index; }
    }
    forall key | key in wider ensures 0 <= wider[key] < |all| && ItemId(all[wider[key]]) == key {
      if key != ItemId(it) { assert all[index[key]] == items[index[key]]; }
    }
  }

  /** Rebuild the index after the oldest item was dropped. */
  method Reindex(items: seq<Item>) returns (index: map<Key, int>)
    requires Distinct(items)
    ensures IndexOk(items, index)
  {
    index := map[];
    var i := 0;
    while i < |items|
      invariant 0 <= i <= |items|
      invariant forall j :: 0 <= j < i ==> ItemId(items[j]) in index && index[ItemId(items[j])] == j
      invariant forall k :: k in index ==> 0 <= index[k] < i && ItemId(items[index[k]]) == k
    {
      index := index[ItemId(items[i]) := i];
      i := i + 1;
    }
  }

  lemma IndexPointwise(items: seq<Item>, after: seq<Item>, index: map<Key, int>, u: MessageUsage)
    requires IndexOk(items, index) && after == AttachUsage(items, u)
    ensures IndexOk(after, index)
  {
    AttachUsageKeepsIds(items, u);
  }

  lemma AttachUsageAt(items: seq<Item>, u: MessageUsage, i: nat)
    requires i < |items|
    ensures AttachUsage(items[..i + 1], u) + items[i + 1..] ==
            if IsAssistant(items[i]) then items[i := MessageItem(WithUsage(items[i].message, u))]
            else AttachUsage(items[..i], u) + items[i..]
  {
    assert items[..i + 1][..i] == items[..i];
    if IsAssistant(items[i]) {
      assert AttachUsage(items[..i + 1], u) == items[..i] + [MessageItem(WithUsage(items[i].message, u))];
    } else {
      assert AttachUsage(items[..i + 1], u) == AttachUsage(items[..i], u) + [items[i]];
      assert [items[i]] + items[i + 1..] == items[i..];
    }
  }

  class LiveChat {
    const id: string
    const workspaceId: string
    var seqNo: nat
    var buf: seq<Entry<Payload>>
    var subs: set<SubId>
    var chans: map<SubId, Channel<Payload>>
    var items: seq<Item>
    var index: map<Key, int>
    var meta: Meta
    var run: RunStatus
    var usage: Usage
    var generation: nat
    var closed: bool

    ghost function ChatView(): Chat
      reads this
    {
      Chat(id, workspaceId, items, meta, run, usage)
    }

    ghost function HubView(): Hub<Payload>
      reads this
    {
      Hub(Log(seqNo, buf), subs, chans, closed)
    }

    ghost predicate Valid()
      reads this
    {
      && IndexOk(items, index)
      && |items| <= MAX_ITEMS
      && subs <= chans.Keys
    }

    constructor (id: string, workspaceId: string)
      ensures Valid()
      ensures this.id == id && this.workspaceId == workspaceId
      ensures ChatView().items == [] && ChatView().run == RunStatus(Idle, "", [])
      ensures HubView() == EmptyHub()
    {
      this.id, this.workspaceId := id, workspaceId;
      seqNo, buf, subs, chans := 0, [], {}, map[];
      items, index := [], map[];
      meta := Meta("", "", "", "", "", "");
      run, usage := RunStatus(Idle, "", []), Usage(0, 0, 0.0, 0);
      generation, closed := 0, false;
    }

    /** Replace by id, or append and drop the oldest when full. */
    method UpsertLocked(it: Item)
      requires Valid()
      modifies this`items, this`index
      ensures Valid()
      ensures items == UpsertCapped(old(items), it)
    {
      var key := ItemId(it);
      IndexIsLookup(items, index, key);
      if key in index {
        IndexedWrite(items, index, it);
        items := items[index[key] := it];
        return;
      }
      UpsertNew(items, it);
      if |items| >= MAX_ITEMS {
        LookupFinds(items, key);
        items := items[1..];
        index := Reindex(items);
        assert key !in index;
      }
      IndexAppend(items, index, it);
      index := index[key := |items|];
      items := items + [it];
    }

    /** Rebuild the timeline from the stored session. */
    method Hydrate(stored: seq<Item>, usage: Usage, meta: Meta)
      requires Valid()
      modifies this`items, this`index, this`usage, this`meta
      ensures Valid()
      ensures ChatView() == Chat(id, workspaceId, Rebuilt(stored), meta.(chatId := id, workspaceId := workspaceId),
                                 run, usage)
    {
      items, index := [], map[];
      var i := 0;
      while i < |stored|
        invariant 0 <= i <= |stored| && Valid()
        invariant items == Rebuilt(stored[..i])
        invariant run == old(run)
      {
        UpsertLocked(stored[i]);
        assert stored[..i + 1][..i] == stored[..i];
        i := i + 1;
      }
      assert stored[..i] == stored;
      this.usage := usage;
      this.meta := meta.(chatId := id, workspaceId := workspaceId);
    }

    /** Fold an incoming tool event onto the stored call of the same id. */
    method MergeToolLocked(t: Tool) returns (out: Tool)
      requires Valid()
      ensures out == MergeTool(Lookup(items, ToolKey(t.id)), t)
    {
      IndexIsLookup(items, index, ToolKey(t.id));
      if ToolKey(t.id) !in index || !items[index[ToolKey(t.id)]].ToolItem? {
        return t;
      }
      out := items[index[ToolKey(t.id)]].tool;
      out := out.(state := t.state, name := OrElse(t.name, out.name),
                  displayName := OrElse(t.displayName, out.displayName));
      out := out.(category := OrElse(t.category, out.category), agentName := OrElse(t.agentName, out.agentName),
                  argsSummary := OrElse(t.argsSummary, out.argsSummary));
      if t.arguments.Some? { out := out.(arguments := t.arguments); }
      if t.images.Some? { out := out.(images := t.images); }
      if t.preview != "" { out := out.(preview := t.preview, outputBytes := t.outputBytes); }
      out := out.(isError := t.isError, truncated := out.truncated || t.truncated);
    }

    /** Attach per-message usage to the newest assistant message. */
    method ApplyMessageUsageLocked(u: MessageUsage)
      requires Valid()
      modifies this`items
      ensures Valid()
      ensures items == AttachUsage(old(items), u)
    {
      var i := |items|;
      assert items[..i] == items && items[i..] == [];
      while i > 0
        invariant 0 <= i <= |items| && items == old(items)
        invariant AttachUsage(items, u) == AttachUsage(items[..i], u) + items[i..]
      {
        i := i - 1;
        AttachUsageAt(items, u, i);
        if IsAssistant(items[i]) {
          IndexPointwise(items, AttachUsage(items, u), index, u);
          items := items[i := MessageItem(WithUsage(items[i].message, u))];
          return;
        }
      }
    }

    /** Rewrite one listed message through the index. */
    method PatchLocked(key: Key, m: Message)
      requires Valid() && key == MessageKey(m.id) && key in index
      modifies this`items
      ensures Valid()
      ensures items == Upsert(old(items), MessageItem(m))
    {
      IndexedWrite(items, index, MessageItem(m));
      items := items[index[key] := MessageItem(m)];
    }

    /** Append streamed text to a listed message. */
    method DeltaLocked(mid: string, text: string, reasoning: bool)
      requires Valid()
      modifies this`items
      ensures Valid() && items == ApplyDelta(old(items), mid, text, reasoning)
    {
      IndexIsLookup(items, index, MessageKey(mid));
      KeyFixesKind(items, mid);
      if MessageKey(mid) in index {
        var m := items[index[MessageKey(mid)]].message;
        if reasoning { m := m.(reasoning := m.reasoning + text, streaming := true); }
        else { m := m.(text := m.text + text, streaming := true); }
        PatchLocked(MessageKey(mid), m);
      }
    }

    method EndLocked(mid: string)
      requires Valid()
      modifies this`items
      ensures Valid() && items == EndStreaming(old(items), mid)
    {
      IndexIsLookup(items, index, MessageKey(mid));
      KeyFixesKind(items, mid);
      if MessageKey(mid) in index {
        PatchLocked(MessageKey(mid), items[index[MessageKey(mid)]].message.(streaming := false));
      }
    }

    /** Merge a tool event, clamp its preview and store it. */
    method ToolLocked(t: Tool) returns (folded: Tool)
      requires Valid()
      modifies this`items, this`index
      ensures Valid() && folded == FoldTool(Lookup(old(items), ToolKey(t.id)), t)
      ensures items == UpsertCapped(old(items), ToolItem(folded))
    {
      var merged := MergeToolLocked(t);
      var (preview, cut) := ClampPreview(merged.preview);
      folded := merged.(preview := preview, truncated := merged.truncated || cut);
      UpsertLocked(ToolItem(folded));
    }

    /** The server-side reducer; returns the event as it is broadcast. */
    method ApplyLocked(p: Payload) returns (out: Payload)
      requires Valid()
      modifies this`items, this`index, this`meta, this`run, this`usage
      ensures Valid()
      ensures (ChatView(), out) == Apply(old(ChatView()), p)
    {
      hide IndexOk, UpsertCapped, FoldTool, ApplyDelta, EndStreaming, AttachUsage;
      out := p;
      match p {
        case MessageEvent(m) => UpsertLocked(MessageItem(m));
        case AssistantDelta(mid, text) => DeltaLocked(mid, text, false);
        case ReasoningDelta(mid, text) => DeltaLocked(mid, text, true);
        case AssistantEnd(mid) => EndLocked(mid);
        case ToolEvent(phase, t) =>
          var folded := ToolLocked(t);
          out := ToolEvent(phase, folded);
        case TransferEvent(x) => UpsertLocked(TransferItem(x));
        case NoticeEvent(n) => UpsertLocked(NoticeItem(n));
        case RunEvent(r) => run := r;
        case UsageEvent(u, last) =>
          if last.Some? { ApplyMessageUsageLocked(last.value); }
          usage := u;
        case MetaEvent(m) =>
          var filled := m;
          if filled.executionTarget == "" { filled := filled.(executionTarget := meta.executionTarget); }
          filled := filled.(chatId := id, workspaceId := workspaceId);
          meta := filled;
          out := MetaEvent(filled);
        case _ =>
      }
    }

    /** Stamp and log an event; an overfull buffer is shifted down in place. */
    method LogLocked(body: Payload) returns (ev: Entry<Payload>)
      modifies this`seqNo, this`buf
      ensures Log(seqNo, buf) == Append(old(Log(seqNo, buf)), EVENT_LOG_CAPACITY, body)
      ensures ev == Entry(old(seqNo) + 1, body)
    {
      seqNo := seqNo + 1;
      ev := Entry(seqNo, body);
      buf := buf + [ev];
      if |buf| > EVENT_LOG_CAPACITY {
        MoveThenCutIsTrim(buf, EVENT_LOG_CAPACITY);
        buf := Moved(buf, |buf| - EVENT_LOG_CAPACITY);
        buf := buf[..EVENT_LOG_CAPACITY];
      }
    }

    /** Log an event and offer it to every subscriber. */
    method BroadcastLocked(body: Payload)
      requires subs <= chans.Keys && !closed
      modifies this`seqNo, this`buf, this`subs, this`chans
      ensures HubView() == EventHub.Publish(old(HubView()), EVENT_LOG_CAPACITY, CHANNEL_ROOM, body)
      ensures subs <= chans.Keys
    {
      var ev := LogLocked(body);
      subs, chans := FanOut(subs, chans, ev, CHANNEL_ROOM);
    }

    /** Apply an event, stamp and log it, and offer it to every subscriber. */
    method Publish(p: Payload)
      requires Valid()
      modifies this
      ensures Valid() && generation == old(generation)
      ensures old(closed) ==> ChatView() == old(ChatView()) && HubView() == old(HubView())
      ensures !old(closed) ==>
                ChatView() == Apply(old(ChatView()), p).0
                && HubView() == EventHub.Publish(old(HubView()), EVENT_LOG_CAPACITY, CHANNEL_ROOM,
                                                 Apply(old(ChatView()), p).1)
    {
      hide IndexOk, Apply, EventHub.Publish;
      if closed { return; }
      var out := ApplyLocked(p);
      BroadcastLocked(out);
    }

    /** The pump's staleness check, a lock section of its own. An event that
        passes it is then published, whatever has happened in between. */
    method PumpCheck(gen: nat) returns (stale: bool)
      ensures stale == (generation != gen || closed)
    {
      stale := generation != gen || closed;
    }

    method TakeSnapshot() returns (snap: Snapshot)
      ensures snap == Snapshot(seqNo, ChatView())
    {
      snap := Snapshot(seqNo, Chat(id, workspaceId, items, meta, run, usage));
    }

    /** Register a new channel; the replay is None when the caller must send a
        snapshot instead. */
    method Subscribe(s: SubId, lastId: nat) returns (replay: Option<seq<Entry<Payload>>>)
      requires Valid() && s !in chans
      modifies this`subs, this`chans
      ensures Valid()
      ensures HubView() == EventHub.Subscribe(old(HubView()), s)
      ensures replay == if old(closed) then None else Resume(old(HubView()).log, lastId)
    {
      if closed {
        chans := chans[s := Channel(seqNo, [], 0, true, 0)];
        return None;
      }
      subs, chans := subs + {s}, chans[s := Channel(seqNo, [], 0, false, 0)];
      if lastId == 0 { return None; }
      if |buf| == 0 || buf[0].seqNo > lastId + 1 || lastId > seqNo { return None; }
      var newer := CollectNewer(buf, lastId);
      return Some(newer);
    }

    method Unsubscribe(s: SubId)
      requires Valid()
      modifies this`subs, this`chans
      ensures Valid() && HubView() == EventHub.Unsubscribe(old(HubView()), s)
    {
      if s in subs {
        subs := subs - {s};
        chans := chans[s := CloseChannel(chans[s])];
      }
    }

    /** The first lock section of close: the runtime's events become stale. */
    method CloseEnter() returns (proceed: bool)
      requires Valid()
      modifies this`generation
      ensures Valid() && proceed == !closed
      ensures generation == old(generation) + if proceed then 1 else 0
    {
      if closed { return false; }
      generation := generation + 1;
      return true;
    }

    /** The second: the terminal event is logged and the subscribers are taken
        off the chat, to be told one by one afterwards. */
    method CloseMark(reason: string) returns (ev: Entry<Payload>, told: set<SubId>)
      requires Valid()
      modifies this`seqNo, this`buf, this`closed, this`subs
      ensures Valid()
      ensures HubView() == MarkClosed(old(HubView()), ChatClosed(reason))
      ensures ev == Entry(old(seqNo) + 1, ChatClosed(reason)) && told == old(subs)
      ensures ChatView() == old(ChatView())
    {
      seqNo := seqNo + 1;
      ev := Entry(seqNo, ChatClosed(reason));
      buf := buf + [ev];
      closed := true;
      told := subs;
      subs := {};
    }

    method CloseTell(s: SubId, ev: Entry<Payload>)
      requires Valid() && s in chans
      modifies this`chans
      ensures Valid() && HubView() == OfferLast(old(HubView()), s, ev, CHANNEL_ROOM)
    {
      if Accepts(chans[s], CHANNEL_ROOM) { chans := chans[s := Send(chans[s], ev)]; }
    }

    method CloseFinish(s: SubId)
      requires Valid() && s in chans
      modifies this`chans
      ensures Valid() && HubView() == CloseLast(old(HubView()), s)
    {
      chans := chans[s := CloseChannel(chans[s])];
    }
  }

  /** The timeline after upserting stored items in order. */
  function Rebuilt(stored: seq<Item>): seq<Item> {
    if stored == [] then []
    else UpsertCapped(Rebuilt(stored[..|stored| - 1]), stored[|stored| - 1])
  }

  lemma {:induction false} RebuiltIsDistinct(stored: seq<Item>)
    ensures Distinct(Rebuilt(stored)) && |Rebuilt(stored)| <= MAX_ITEMS
  {
    if stored != [] {
      RebuiltIsDistinct(stored[..|stored| - 1]);
      UpsertCappedKeepsDistinct(Rebuilt(stored[..|stored| - 1]), stored[|stored| - 1]);
    }
  }

  lemma RebuiltSnoc(before: seq<Item>, last: Item)
    requires forall i :: 0 <= i < |before| ==> ItemId(before[i]) != ItemId(last)
    ensures UpsertCapped(before, last) == if |before| >= MAX_ITEMS then before[1..] + [last] else before + [last]
  {
    LookupFinds(before, ItemId(last));
    UpsertNew(before, last);
  }

  lemma LastIsNew(stored: seq<Item>)
    requires Distinct(stored) && stored != []
    ensures Distinct(stored[..|stored| - 1])
    ensures forall i :: 0 <= i < |stored| - 1 ==> ItemId(stored[i]) != ItemId(stored[|stored| - 1])
  {
    hide ItemId;
  }

  lemma RebuiltOne(stored: seq<Item>)
    requires stored != []
    ensures Rebuilt(stored) == UpsertCapped(Rebuilt(stored[..|stored| - 1]), stored[|stored| - 1])
  {
    hide UpsertCapped;
  }

  lemma SlideOne(stored: seq<Item>)
    requires |stored| > MAX_ITEMS
    ensures var init, n := stored[..|stored| - 1], |stored| - 1;
            var before := if n > MAX_ITEMS then init[n - MAX_ITEMS..] else init;
            |before| == MAX_ITEMS && before[1..] + [stored[n]] == stored[|stored| - MAX_ITEMS..]
  {
  }

  /** Distinct stored items come back in order, the last 2000 of them. */
  lemma {:induction false} RebuiltInOrder(stored: seq<Item>)
    requires Distinct(stored)
    ensures Rebuilt(stored) == if |stored| > MAX_ITEMS then stored[|stored| - MAX_ITEMS..] else stored
  {
    if stored != [] {
      hide ItemId, UpsertCapped, Distinct, Rebuilt, Lookup;
      var init, n := stored[..|stored| - 1], |stored| - 1;
      LastIsNew(stored);
      RebuiltInOrder(init);
      RebuiltOne(stored);
      OthersBefore(stored, Rebuilt(init));
      RebuiltSnoc(Rebuilt(init), stored[n]);
      if n >= MAX_ITEMS { SlideOne(stored); } else { assert init + [stored[n]] == stored; }
    }
  }

  lemma OthersBefore(stored: seq<Item>, before: seq<Item>)
    requires stored != [] && forall i :: 0 <= i < |stored| - 1 ==> ItemId(stored[i]) != ItemId(stored[|stored| - 1])
    requires var init, n := stored[..|stored| - 1], |stored| - 1;
             before == if n > MAX_ITEMS then init[n - MAX_ITEMS..] else init
    ensures forall i :: 0 <= i < |before| ==> ItemId(before[i]) != ItemId(stored[|stored| - 1])
  {
    hide ItemId;
  }

  /** The place of the last stored item with an identity. */
  ghost predicate LastStored(stored: seq<Item>, key: Key, k: int) {
    0 <= k < |stored| && ItemId(stored[k]) == key && forall j :: k < j < |stored| ==> ItemId(stored[j]) != key
  }

  ghost predicate IsLastStored(stored: seq<Item>, key: Key, it: Item) {
    exists k :: LastStored(stored, key, k) && it == stored[k]
  }

  /** Whatever is stored, an item that is listed is the last one stored under its
      identity. */
  lemma {:induction false} RebuiltIsLatest(stored: seq<Item>, key: Key)
    ensures var found := Lookup(Rebuilt(stored), key);
            && (found.Some? ==> IsLastStored(stored, key, found.value))
            && (stored != [] && ItemId(stored[|stored| - 1]) == key ==> found.Some?)
  {
    if stored != [] {
      hide ItemId, UpsertCapped, Distinct, Lookup, IsLastStored, Rebuilt;
      var init, n := stored[..|stored| - 1], |stored| - 1;
      RebuiltIsLatest(init, key);
      RebuiltIsDistinct(init);
      RebuiltOne(stored);
      LookupUpsertCapped(Rebuilt(init), stored[n], key);
      if ItemId(stored[n]) == key {
        LastIsLast(stored, key);
      } else if Lookup(Rebuilt(init), key).Some? {
        LastStays(stored, key, Lookup(Rebuilt(init), key).value);
      }
    }
  }

  lemma LastIsLast(stored: seq<Item>, key: Key)
    requires stored != [] && ItemId(stored[|stored| - 1]) == key
    ensures IsLastStored(stored, key, stored[|stored| - 1])
  {
    assert LastStored(stored, key, |stored| - 1);
  }

  lemma LastStays(stored: seq<Item>, key: Key, it: Item)
    requires stored != [] && IsLastStored(stored[..|stored| - 1], key, it) && ItemId(stored[|stored| - 1]) != key
    ensures IsLastStored(stored, key, it)
  {
    hide ItemId;
    var init := stored[..|stored| - 1];
    var k :| LastStored(init, key, k) && it == init[k];
    assert LastStored(stored, key, k);
  }
}
