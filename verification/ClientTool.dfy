/** What the browser keeps of a tool after any number of tool events, and of the
    rest of a chat after any number of frames. */
module ClientTools {
  import opened Protocol
  import opened Timeline
  import opened Reducer
  import opened ToolPreview

  /** A tool event as it arrives; an update brings output to append. */
  datatype Arrival = Arrival(update: bool, tool: Tool)

  function ClientFolded(arrivals: seq<Arrival>): Tool
    requires arrivals != []
  {
    var last := arrivals[|arrivals| - 1];
    if |arrivals| == 1 then last.tool
    else ClientTool(ClientFolded(arrivals[..|arrivals| - 1]), last.tool, last.update)
  }

  function ToolsOf(arrivals: seq<Arrival>): (r: seq<Tool>)
    ensures |r| == |arrivals|
  {
    seq(|arrivals|, i requires 0 <= i < |arrivals| => arrivals[i].tool)
  }

  function OutputOf(arrivals: seq<Arrival>): string {
    if arrivals == [] then "" else arrivals[0].tool.preview + OutputOf(arrivals[1..])
  }

  function BytesOf(arrivals: seq<Arrival>): int {
    if arrivals == [] then 0 else arrivals[0].tool.outputBytes + BytesOf(arrivals[1..])
  }

  /** Output starts over with the last event that is no update, or else with the
      first event. */
  ghost predicate StartsAt(arrivals: seq<Arrival>, k: int) {
    && 0 <= k < |arrivals| && (k == 0 || !arrivals[k].update)
    && forall j :: k < j < |arrivals| ==> arrivals[j].update
  }

  ghost predicate OutputTells(t: Tool, arrivals: seq<Arrival>) {
    exists k :: StartsAt(arrivals, k) && t.preview == OutputOf(arrivals[k..]) && t.outputBytes == BytesOf(arrivals[k..])
  }

  ghost predicate FieldsTell(t: Tool, arrivals: seq<Arrival>)
    requires arrivals != []
  {
    var tools := ToolsOf(arrivals);
    var last := arrivals[|arrivals| - 1].tool;
    && t.id == last.id && t.name == last.name && t.category == last.category && t.agentName == last.agentName
    && t.state == last.state && t.truncated == last.truncated && t.isError == last.isError
    && Latest(TextsOf(tools, DisplayName), "", t.displayName)
    && Latest(TextsOf(tools, ArgsSummary), "", t.argsSummary)
    && Latest(ArgumentsOf(tools), None, t.arguments)
    && Latest(ImagesOf(tools), None, t.images)
  }

  lemma {:induction false} OutputSnoc(arrivals: seq<Arrival>, a: Arrival)
    ensures OutputOf(arrivals + [a]) == OutputOf(arrivals) + a.tool.preview
    ensures BytesOf(arrivals + [a]) == BytesOf(arrivals) + a.tool.outputBytes
  {
    if arrivals == [] {
      assert (arrivals + [a])[1..] == [];
      assert a.tool.preview + "" == a.tool.preview == "" + a.tool.preview;
    } else {
      assert (arrivals + [a])[1..] == arrivals[1..] + [a];
      OutputSnoc(arrivals[1..], a);
      assert arrivals[0].tool.preview + (OutputOf(arrivals[1..]) + a.tool.preview)
             == arrivals[0].tool.preview + OutputOf(arrivals[1..]) + a.tool.preview;
    }
  }

  lemma OutputMore(cur: Tool, arrivals: seq<Arrival>, a: Arrival)
    requires arrivals != [] && OutputTells(cur, arrivals)
    ensures OutputTells(ClientTool(cur, a.tool, a.update), arrivals + [a])
  {
    var all, n := arrivals + [a], |arrivals|;
    if a.update {
      var k :| StartsAt(arrivals, k) && cur.preview == OutputOf(arrivals[k..])
               && cur.outputBytes == BytesOf(arrivals[k..]);
      assert all[k..] == arrivals[k..] + [a];
      OutputSnoc(arrivals[k..], a);
      assert StartsAt(all, k);
    } else {
      assert all[n..] == [] + [a] && OutputOf([]) == "" && "" + a.tool.preview == a.tool.preview;
      OutputSnoc([], a);
      assert StartsAt(all, n);
    }
  }

  lemma FieldsMore(cur: Tool, arrivals: seq<Arrival>, a: Arrival)
    requires arrivals != [] && FieldsTell(cur, arrivals)
    ensures FieldsTell(ClientTool(cur, a.tool, a.update), arrivals + [a])
  {
    hide Latest;
    var tools, t := ToolsOf(arrivals), a.tool;
    var all := ToolsOf(arrivals + [a]);
    assert all == tools + [t];
    assert TextsOf(all, DisplayName) == TextsOf(tools, DisplayName) + [t.displayName];
    assert TextsOf(all, ArgsSummary) == TextsOf(tools, ArgsSummary) + [t.argsSummary];
    assert ArgumentsOf(all) == ArgumentsOf(tools) + [t.arguments] && ImagesOf(all) == ImagesOf(tools) + [t.images];
    LatestSnoc(TextsOf(tools, DisplayName), "", cur.displayName, t.displayName);
    LatestSnoc(TextsOf(tools, ArgsSummary), "", cur.argsSummary, t.argsSummary);
    LatestSnoc(ArgumentsOf(tools), None, cur.arguments, t.arguments);
    LatestSnoc(ImagesOf(tools), None, cur.images, t.images);
  }

  lemma FirstTells(a: Arrival)
    ensures FieldsTell(a.tool, [a]) && OutputTells(a.tool, [a])
  {
    var t := a.tool;
    assert ToolsOf([a]) == [t];
    assert TextsOf([t], DisplayName) == [t.displayName] && TextsOf([t], ArgsSummary) == [t.argsSummary];
    assert ArgumentsOf([t]) == [t.arguments] && ImagesOf([t]) == [t.images];
    LatestOne(t.displayName, "");
    LatestOne(t.argsSummary, "");
    LatestOne(t.arguments, None);
    LatestOne(t.images, None);
    assert StartsAt([a], 0) && [a][0..] == [a] && [a][1..] == [];
    assert OutputOf([]) == "" && t.preview + "" == t.preview && BytesOf([]) == 0;
    assert OutputOf([a][0..]) == t.preview && BytesOf([a][0..]) == t.outputBytes;
  }

  /** What the browser keeps of a tool: the last event's state and names, the
      latest presentation fields, and all output since it last started over. */
  lemma {:induction false} ClientFoldedTells(arrivals: seq<Arrival>)
    requires arrivals != []
    ensures FieldsTell(ClientFolded(arrivals), arrivals) && OutputTells(ClientFolded(arrivals), arrivals)
  {
    hide FieldsTell, OutputTells, ClientTool;
    var init, last := arrivals[..|arrivals| - 1], arrivals[|arrivals| - 1];
    assert arrivals == init + [last];
    if |arrivals| == 1 {
      assert arrivals == [last];
      FirstTells(last);
    } else {
      ClientFoldedTells(init);
      OutputMore(ClientFolded(init), init, last);
      FieldsMore(ClientFolded(init), init, last);
    }
  }

  // ------------------------------------------------------------ whole folds

  /** Events numbered on from `n`. */
  function NumberedFrom(n: nat, events: seq<Payload>): (r: seq<Frame>)
    ensures |r| == |events|
  {
    seq(|events|, i requires 0 <= i < |events| => EventFrame(n + i + 1, events[i]))
  }

  function ArrivalsOf(events: seq<Payload>, id: string): seq<Arrival> {
    if events == [] then []
    else
      var last := events[|events| - 1];
      ArrivalsOf(events[..|events| - 1], id)
      + if last.ToolEvent? && last.tool.id == id then [Arrival(last.phase.Update?, last.tool)] else []
  }

  function Kept(arrivals: seq<Arrival>): Option<Item> {
    if arrivals == [] then None else Some(ToolItem(ClientFolded(arrivals)))
  }

  /** The browser's state after further events. */
  function Later(state: ChatState, events: seq<Payload>): ChatState {
    ReduceAll(state, NumberedFrom(state.seqNo, events))
  }

  lemma LaterNone(state: ChatState)
    ensures Later(state, []) == state
  {
  }

  lemma LaterSnoc(state: ChatState, events: seq<Payload>)
    requires events != []
    ensures var init, n := events[..|events| - 1], |events| - 1;
            Later(state, events) == Reduce(Later(state, init), EventFrame(state.seqNo + n + 1, events[n]))
  {
    hide Reduce;
    var frames, n := NumberedFrom(state.seqNo, events), |events| - 1;
    assert frames[..n] == NumberedFrom(state.seqNo, events[..n]);
  }

  /** One event changes a kept tool only if it is about that tool. */
  lemma ToolStep(items: seq<Item>, p: Payload, id: string, before: seq<Arrival>)
    requires Lookup(items, ToolKey(id)) == Kept(before)
    ensures Lookup(ReduceItems(items, p), ToolKey(id)) ==
            Kept(before + if p.ToolEvent? && p.tool.id == id then [Arrival(p.phase.Update?, p.tool)] else [])
  {
    hide ClientTool;
    var key := ToolKey(id);
    assert before + [] == before;
    match p
    case MessageEvent(m) => LookupUpsert(items, MessageItem(m), key);
    case AssistantDelta(mid, text) => PatchedKeeps(items, mid, text, "", true, key);
    case ReasoningDelta(mid, text) => PatchedKeeps(items, mid, "", text, true, key);
    case AssistantEnd(mid) => PatchedKeeps(items, mid, "", "", false, key);
    case ReasoningEnd(mid) => PatchedKeeps(items, mid, "", "", false, key);
    case ToolEvent(phase, t) => ToolArrives(items, t, phase.Update?, id, before);
    case TransferEvent(x) => LookupUpsert(items, TransferItem(x), key);
    case NoticeEvent(n) => LookupUpsert(items, NoticeItem(n), key);
    case SummaryEvent(x) => LookupUpsert(items, SummaryItem(x), key);
    case _ =>
  }

  lemma PatchedKeeps(items: seq<Item>, mid: string, text: string, reasoning: string, streaming: bool, key: Key)
    requires key.ToolKey?
    ensures Lookup(PatchText(items, mid, text, reasoning, streaming), key) == Lookup(items, key)
  {
    KeyFixesKind(items, mid);
    match Lookup(items, MessageKey(mid))
    case Some(MessageItem(m)) =>
      LookupUpsert(items, MessageItem(m.(text := m.text + text, reasoning := m.reasoning + reasoning,
                                         streaming := streaming)), key);
    case _ =>
  }

  lemma ToolArrives(items: seq<Item>, t: Tool, update: bool, id: string, before: seq<Arrival>)
    requires Lookup(items, ToolKey(id)) == Kept(before)
    ensures Lookup(UpsertTool(items, t, update), ToolKey(id)) ==
            Kept(before + if t.id == id then [Arrival(update, t)] else [])
  {
    KeyFixesKind(items, t.id);
    assert before + [] == before;
    var all := before + [Arrival(update, t)];
    assert all[..|before|] == before;
    match Lookup(items, ToolKey(t.id))
    case None => LookupAppend(items, ToolItem(t), ToolKey(id));
    case Some(ToolItem(cur)) =>
      ClientToolId(cur, t, update);
      LookupUpsert(items, ToolItem(ClientTool(cur, t, update)), ToolKey(id));
  }

  lemma ClientToolId(cur: Tool, t: Tool, update: bool)
    ensures ClientTool(cur, t, update).id == t.id
  {
  }

  lemma ReduceItemsStep(state: ChatState, n: nat, p: Payload)
    requires n == state.seqNo + 1
    ensures Reduce(state, EventFrame(n, p)).items == ReduceItems(state.items, p)
    ensures Reduce(state, EventFrame(n, p)).seqNo == n
  {
  }

  lemma {:induction false} ToolKept(state: ChatState, known: seq<Arrival>, events: seq<Payload>, id: string)
    requires Lookup(state.items, ToolKey(id)) == Kept(known)
    ensures var z := Later(state, events);
            z.seqNo == state.seqNo + |events| && Lookup(z.items, ToolKey(id)) == Kept(known + ArrivalsOf(events, id))
  {
    hide Reduce, ReduceItems, Lookup, Kept, Later;
    if events == [] {
      LaterNone(state);
      assert known + ArrivalsOf(events, id) == known;
    } else {
      hide ArrivalsOf;
      var init, n := events[..|events| - 1], |events| - 1;
      ToolKept(state, known, init, id);
      LaterSnoc(state, events);
      ReduceItemsStep(Later(state, init), state.seqNo + n + 1, events[n]);
      ToolStep(Later(state, init).items, events[n], id, known + ArrivalsOf(init, id));
      ArrivalsSnoc(known, events, id);
    }
  }

  lemma ArrivalsSnoc(known: seq<Arrival>, events: seq<Payload>, id: string)
    requires events != []
    ensures var last := events[|events| - 1];
            known + ArrivalsOf(events, id)
            == known + ArrivalsOf(events[..|events| - 1], id)
               + if last.ToolEvent? && last.tool.id == id then [Arrival(last.phase.Update?, last.tool)] else []
  {
  }

  /** Over any history of events, whatever else they are about, from a state that
      lists the tool once already, as a snapshot may, or not yet. */
  lemma ClientToolTells(state: ChatState, known: Option<Tool>, events: seq<Payload>, id: string)
    requires Lookup(state.items, ToolKey(id)) == match known case Some(t) => Some(ToolItem(t)) case None => None
    ensures var own := (match known case Some(t) => [Arrival(false, t)] case None => []) + ArrivalsOf(events, id);
            var found := Lookup(Later(state, events).items, ToolKey(id));
            && (found.None? <==> own == [])
            && (own != [] ==>
                  found.value.ToolItem? && FieldsTell(found.value.tool, own) && OutputTells(found.value.tool, own))
  {
    hide FieldsTell, OutputTells, Lookup, Later;
    var first := match known case Some(t) => [Arrival(false, t)] case None => [];
    ToolKept(state, first, events, id);
    var own := first + ArrivalsOf(events, id);
    if own != [] { ClientFoldedTells(own); }
  }

  // --------------------------------------------------------- closed and numbers

  ghost predicate LastClosed(events: seq<Payload>, k: int) {
    0 <= k < |events| && events[k].ChatClosed? && forall j :: k < j < |events| ==> !events[j].ChatClosed?
  }

  lemma ClosedStep(state: ChatState, n: nat, p: Payload)
    requires n == state.seqNo + 1
    ensures var z := Reduce(state, EventFrame(n, p));
            && z.seqNo == n
            && z.closed == (state.closed || p.ChatClosed?)
            && z.closedReason == if p.ChatClosed? then p.reason else state.closedReason
  {
    hide ReduceItems;
  }

  ghost predicate ClosedTells(z: ChatState, events: seq<Payload>) {
    && (z.closed <==> exists k :: 0 <= k < |events| && events[k].ChatClosed?)
    && (!z.closed ==> z.closedReason == "")
    && (z.closed ==> exists k :: LastClosed(events, k) && z.closedReason == events[k].reason)
  }

  lemma ClosedSnoc(y: ChatState, z: ChatState, init: seq<Payload>, last: Payload)
    requires ClosedTells(y, init)
    requires z.closed == (y.closed || last.ChatClosed?)
    requires z.closedReason == if last.ChatClosed? then last.reason else y.closedReason
    ensures ClosedTells(z, init + [last])
  {
    var events, n := init + [last], |init|;
    assert events[n] == last && forall i :: 0 <= i < n ==> events[i] == init[i];
    if last.ChatClosed? {
      assert LastClosed(events, n);
    } else if y.closed {
      var k :| LastClosed(init, k) && y.closedReason == init[k].reason;
      assert LastClosed(events, k) && events[k].ChatClosed?;
    }
  }

  /** The browser takes a chat for closed exactly after a closing event, with the
      reason of the last one. */
  lemma {:induction false} ClosedIffTold(state: ChatState, events: seq<Payload>)
    requires !state.closed && state.closedReason == ""
    ensures Later(state, events).seqNo == state.seqNo + |events| && ClosedTells(Later(state, events), events)
  {
    hide Reduce, Later;
    if events == [] {
      LaterNone(state);
    } else {
      hide ClosedTells;
      var init, n := events[..|events| - 1], |events| - 1;
      ClosedIffTold(state, init);
      LaterSnoc(state, events);
      ClosedStep(Later(state, init), state.seqNo + n + 1, events[n]);
      ClosedSnoc(Later(state, init), Later(state, events), init, events[n]);
      assert init + [events[n]] == events;
    }
  }

  /** A snapshot replaces everything and opens the chat; a gap changes nothing; a
      numbered event counts once; and one without a number is applied without
      being counted. */
  lemma FramesCountOnce(state: ChatState, f: Frame)
    ensures match f
            case GapFrame => Reduce(state, f) == state
            case SnapshotFrame(snap) =>
              var z := Reduce(state, f);
              && z.seqNo == snap.seqNo && !z.closed && z.closedReason == "" && |z.items| == |snap.chat.items|
              && (forall i :: 0 <= i < |z.items| ==> z.items[i] == WireItem(snap.chat.items[i]))
              && z.meta == Some(snap.chat.meta) && z.run == snap.chat.run && z.usage == snap.chat.usage
            case EventFrame(n, p) =>
              && (0 < n <= state.seqNo ==> Reduce(state, f) == state)
              && (n > state.seqNo ==> Reduce(state, f).seqNo == n && Reduce(Reduce(state, f), f) == Reduce(state, f))
              && (n == 0 ==> Reduce(state, f) == Reduce(state, EventFrame(state.seqNo + 1, p)).(seqNo := state.seqNo))
  {
    hide ReduceItems;
  }
}
