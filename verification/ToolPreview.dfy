/** What a stored tool says after any number of tool events: its fields, and its
    preview, which every event clamps again. */
module ToolPreview {
  import opened Protocol
  import opened Preview
  import opened Timeline

  /** The tool stored after a non-empty run of events about one call. */
  function Folded(events: seq<Tool>): Tool
    requires events != []
  {
    var last := events[|events| - 1];
    if |events| == 1 then FoldTool(None, last)
    else FoldTool(Some(ToolItem(Folded(events[..|events| - 1]))), last)
  }

  /** The latest non-empty preview that came with an event. */
  function LatestRaw(events: seq<Tool>): string {
    if events == [] then ""
    else if events[|events| - 1].preview != "" then events[|events| - 1].preview
    else LatestRaw(events[..|events| - 1])
  }

  /** The count printed in the marker: the bytes cut from the previous stored
      text, which after an event without output is only the previous marker. */
  function PrintedCount(events: seq<Tool>): int
    requires events != []
  {
    var last := events[|events| - 1];
    if last.preview != "" || |events| == 1 then |last.preview| - PREVIEW_LIMIT
    else |Marker(PrintedCount(events[..|events| - 1]))|
  }

  ghost predicate Measurable(events: seq<Tool>) {
    forall i :: 0 <= i < |events| ==> |events[i].preview| <= MAX_INT64
  }

  /** A stored preview for a raw one: all of it if it is short, else its first
      bytes and a marker with the given count. */
  ghost predicate Shows(stored: Tool, raw: string, count: int) {
    if |raw| <= PREVIEW_LIMIT then stored.preview == raw
    else stored.preview == raw[..PREVIEW_LIMIT] + Marker(count)
         && PREVIEW_LIMIT < |stored.preview| <= PREVIEW_LIMIT + MARKER_LIMIT
         && stored.truncated
  }

  /** However often the preview is clamped again, it stays within the limit
      plus one marker and keeps the first bytes of the latest output. */
  lemma {:induction false} StoredPreview(events: seq<Tool>)
    requires events != [] && Measurable(events)
    ensures Shows(Folded(events), LatestRaw(events), PrintedCount(events))
  {
    var prefix, last := events[..|events| - 1], events[|events| - 1];
    if |events| == 1 {
      assert LatestRaw(prefix) == "";
      FreshShows(None, last);
    } else {
      StoredPreview(prefix);
      if last.preview != "" { FreshShows(Some(ToolItem(Folded(prefix))), last); }
      else { SilentShows(Folded(prefix), last, LatestRaw(prefix), PrintedCount(prefix)); }
    }
    hide Shows, FoldTool;
  }

  lemma FreshShows(known: Option<Item>, last: Tool)
    requires last.preview != "" || known.None?
    requires |last.preview| <= MAX_INT64
    ensures Shows(FoldTool(known, last), last.preview, |last.preview| - PREVIEW_LIMIT)
  {
    ClampBounds(last.preview);
  }

  lemma SilentShows(before: Tool, last: Tool, raw: string, count: int)
    requires last.preview == "" && Shows(before, raw, count)
    ensures Shows(FoldTool(Some(ToolItem(before)), last), raw, |Marker(count)|)
  {
    ClampBounds(before.preview);
    if |raw| > PREVIEW_LIMIT { assert before.preview[..PREVIEW_LIMIT] == raw[..PREVIEW_LIMIT]; }
  }

  /** Once truncated, always truncated, whatever follows. */
  lemma {:induction false} TruncatedNeverReverts(events: seq<Tool>, n: nat)
    requires 0 < n <= |events|
    requires Folded(events[..n]).truncated
    ensures Folded(events).truncated
    decreases |events|
  {
    if n < |events| {
      assert events[..|events| - 1][..n] == events[..n];
      TruncatedNeverReverts(events[..|events| - 1], n);
    } else {
      assert events[..n] == events;
    }
  }

  lemma MarkerInjective(a: nat, b: nat)
    requires Marker(a) == Marker(b)
    ensures a == b
  {
    var h := |MARKER_HEAD|;
    var ma, mb := Marker(a), Marker(b);
    assert ma[h..|ma| - |MARKER_TAIL|] == Decimal(a);
    assert mb[h..|mb| - |MARKER_TAIL|] == Decimal(b);
    DecimalInjective(a, b);
  }

  /** The marker tells the truth right after an event with output. An event
      without output then leaves it true exactly when the number of omitted
      bytes happens to be the length of the marker itself. */
  lemma MarkerCountSurvives(known: Tool, raw: string, silent: Tool)
    requires PREVIEW_LIMIT < |raw|
    requires known.preview == ClampPreview(raw).0 && silent.preview == ""
    ensures FoldTool(Some(ToolItem(known)), silent).preview == ClampPreview(raw).0
            <==> |Marker(|raw| - PREVIEW_LIMIT)| == |raw| - PREVIEW_LIMIT
  {
    var omitted := |raw| - PREVIEW_LIMIT;
    var head := raw[..PREVIEW_LIMIT];
    var again := FoldTool(Some(ToolItem(known)), silent).preview;
    assert known.preview == head + Marker(omitted);
    assert known.preview[..PREVIEW_LIMIT] == head;
    assert again == head + Marker(|Marker(omitted)|);
    if again == ClampPreview(raw).0 {
      assert again[PREVIEW_LIMIT..] == Marker(|Marker(omitted)|);
      assert known.preview[PREVIEW_LIMIT..] == Marker(omitted);
      MarkerInjective(|Marker(omitted)|, omitted);
    }
  }

  // ------------------------------------------------------ the other fields

  datatype TextField = Name | DisplayName | Category | AgentName | ArgsSummary

  function TextOf(t: Tool, field: TextField): string {
    match field
    case Name => t.name
    case DisplayName => t.displayName
    case Category => t.category
    case AgentName => t.agentName
    case ArgsSummary => t.argsSummary
  }

  function TextsOf(events: seq<Tool>, field: TextField): seq<string> {
    seq(|events|, i requires 0 <= i < |events| => TextOf(events[i], field))
  }

  function ArgumentsOf(events: seq<Tool>): seq<Option<Arguments>> {
    seq(|events|, i requires 0 <= i < |events| => events[i].arguments)
  }

  function ImagesOf(events: seq<Tool>): seq<Option<seq<Image>>> {
    seq(|events|, i requires 0 <= i < |events| => events[i].images)
  }

  function PreviewsOf(events: seq<Tool>): seq<string> {
    seq(|events|, i requires 0 <= i < |events| => events[i].preview)
  }

  /** The last value that is not missing stands at `k`. */
  ghost predicate LastPresent<T>(values: seq<T>, missing: T, k: int) {
    0 <= k < |values| && values[k] != missing && forall j :: k < j < |values| ==> values[j] == missing
  }

  /** `v` is the last of the values that is not missing, if there is one. */
  ghost predicate Latest<T>(values: seq<T>, missing: T, v: T) {
    if v == missing then forall k :: 0 <= k < |values| ==> values[k] == missing
    else exists k :: LastPresent(values, missing, k) && values[k] == v
  }

  lemma LatestSnoc<T>(values: seq<T>, missing: T, v: T, x: T)
    requires Latest(values, missing, v)
    ensures Latest(values + [x], missing, if x == missing then v else x)
  {
    var all := values + [x];
    if x != missing {
      assert LastPresent(all, missing, |values|);
    } else if v != missing {
      var k :| LastPresent(values, missing, k) && values[k] == v;
      assert LastPresent(all, missing, k);
    }
  }

  lemma LatestOne<T>(x: T, missing: T)
    ensures Latest([x], missing, x)
  {
    if x != missing { assert LastPresent([x], missing, 0); }
  }

  /** State and error flag are the last event's; a text that events leave empty
      and a collection that they leave out are as last given. */
  ghost predicate FieldsOk(f: Tool, events: seq<Tool>)
    requires events != []
  {
    var last := events[|events| - 1];
    && f.id == events[0].id && f.state == last.state && f.isError == last.isError
    && (forall field :: Latest(TextsOf(events, field), "", TextOf(f, field)))
    && Latest(ArgumentsOf(events), None, f.arguments)
    && Latest(ImagesOf(events), None, f.images)
  }

  /** The byte count came with the latest output, or with the first event if
      there was none. */
  ghost predicate CountOk(f: Tool, events: seq<Tool>) {
    exists k :: 0 <= k < |events| && f.outputBytes == events[k].outputBytes
      && (LastPresent(PreviewsOf(events), "", k) || (k == 0 && Latest(PreviewsOf(events), "", "")))
  }

  predicate Cuts(t: Tool) { t.truncated || |t.preview| > PREVIEW_LIMIT }

  /** The flag is set once an event sets it or comes with too much output. */
  ghost predicate FlagOk(f: Tool, events: seq<Tool>) {
    && (f.truncated <==> exists k :: 0 <= k < |events| && Cuts(events[k]))
    && (|f.preview| > PREVIEW_LIMIT ==> f.truncated)
  }

  ghost predicate Tells(f: Tool, events: seq<Tool>)
    requires events != []
  {
    FieldsOk(f, events) && CountOk(f, events) && FlagOk(f, events)
  }

  lemma FirstTells(t: Tool)
    ensures Tells(FoldTool(None, t), [t])
  {
    forall field: TextField ensures Latest(TextsOf([t], field), "", TextOf(t, field)) {
      assert TextsOf([t], field) == [TextOf(t, field)];
      LatestOne(TextOf(t, field), "");
    }
    assert ArgumentsOf([t]) == [t.arguments] && ImagesOf([t]) == [t.images] && PreviewsOf([t]) == [t.preview];
    LatestOne(t.arguments, None);
    LatestOne(t.images, None);
    assert [t][0] == t && (t.preview != "" ==> LastPresent(PreviewsOf([t]), "", 0));
  }

  lemma FieldsSnoc(known: Tool, events: seq<Tool>, t: Tool)
    requires events != [] && FieldsOk(known, events)
    ensures FieldsOk(FoldTool(Some(ToolItem(known)), t), events + [t])
  {
    hide Latest, ClampPreview;
    var all, f := events + [t], FoldTool(Some(ToolItem(known)), t);
    forall field: TextField ensures Latest(TextsOf(all, field), "", TextOf(f, field)) {
      assert TextsOf(all, field) == TextsOf(events, field) + [TextOf(t, field)];
      LatestSnoc(TextsOf(events, field), "", TextOf(known, field), TextOf(t, field));
    }
    assert ArgumentsOf(all) == ArgumentsOf(events) + [t.arguments];
    assert ImagesOf(all) == ImagesOf(events) + [t.images];
    LatestSnoc(ArgumentsOf(events), None, known.arguments, t.arguments);
    LatestSnoc(ImagesOf(events), None, known.images, t.images);
  }

  lemma CountSnoc(known: Tool, events: seq<Tool>, t: Tool)
    requires CountOk(known, events)
    ensures CountOk(FoldTool(Some(ToolItem(known)), t), events + [t])
  {
    hide ClampPreview, OrElse;
    var all := events + [t];
    assert PreviewsOf(all) == PreviewsOf(events) + [t.preview];
    var k :| 0 <= k < |events| && known.outputBytes == events[k].outputBytes
             && (LastPresent(PreviewsOf(events), "", k) || (k == 0 && Latest(PreviewsOf(events), "", "")));
    if t.preview != "" {
      assert LastPresent(PreviewsOf(all), "", |events|) && all[|events|] == t;
    } else {
      if LastPresent(PreviewsOf(events), "", k) { assert LastPresent(PreviewsOf(all), "", k); }
      assert all[k] == events[k];
    }
  }

  lemma FlagSnoc(known: Tool, events: seq<Tool>, t: Tool)
    requires FlagOk(known, events)
    ensures FlagOk(FoldTool(Some(ToolItem(known)), t), events + [t])
  {
    var all := events + [t];
    assert all[|events|] == t && forall k :: 0 <= k < |events| ==> all[k] == events[k];
    hide Marker;
  }

  /** What a tool says after any number of events about it, field by field. */
  lemma {:induction false} FoldedTells(events: seq<Tool>)
    requires events != []
    ensures Tells(Folded(events), events)
  {
    var prefix, last := events[..|events| - 1], events[|events| - 1];
    hide FieldsOk, CountOk, FlagOk, FoldTool;
    assert events == prefix + [last];
    if |events| == 1 {
      FirstTells(last);
      assert events == [last];
    } else {
      FoldedTells(prefix);
      FieldsSnoc(Folded(prefix), prefix, last);
      CountSnoc(Folded(prefix), prefix, last);
      FlagSnoc(Folded(prefix), prefix, last);
    }
  }

  // -------------------------------------------------- over a whole timeline

  /** The tool events about one call, in order. */
  function EventsFor(events: seq<Payload>, id: string): seq<Tool> {
    if events == [] then []
    else
      var last := events[|events| - 1];
      EventsFor(events[..|events| - 1], id)
      + if last.ToolEvent? && last.tool.id == id then [last.tool] else []
  }

  lemma {:induction false} LookupPointwise(a: seq<Item>, b: seq<Item>, key: Key)
    requires |a| == |b|
    requires forall i :: 0 <= i < |a| ==> ItemId(a[i]) == ItemId(b[i])
    requires forall i :: 0 <= i < |a| && ItemId(a[i]) == key ==> a[i] == b[i]
    ensures Lookup(a, key) == Lookup(b, key)
  {
    if a != [] {
      LookupPointwise(a[1..], b[1..], key);
    }
  }

  lemma {:induction false} LookupAppend(items: seq<Item>, it: Item, key: Key)
    ensures Lookup(items + [it], key) ==
            if Lookup(items, key).Some? then Lookup(items, key)
            else if ItemId(it) == key then Some(it) else None
  {
    if items == [] {
      assert (items + [it])[1..] == [];
    } else {
      assert (items + [it])[1..] == items[1..] + [it];
      LookupAppend(items[1..], it, key);
    }
  }

  lemma LookupUpsertCapped(items: seq<Item>, it: Item, key: Key)
    requires Distinct(items)
    ensures var found := Lookup(UpsertCapped(items, it), key);
            if key == ItemId(it) then found == Some(it)
            else found == Lookup(items, key) || found.None?
  {
    LookupUpsert(items, it, key);
    if Lookup(items, ItemId(it)).None? && |items| >= MAX_ITEMS {
      LookupAppend(items[1..], it, key);
      LookupFinds(items[1..], key);
      LookupFinds(items, ItemId(it));
      LookupFinds(items[1..], ItemId(it));
    }
  }

  /** One event changes a listed tool only if it is about that tool. */
  lemma SlotStep(c: Chat, p: Payload, id: string)
    requires Distinct(c.items)
    ensures var key := ToolKey(id);
            var now := Lookup(Apply(c, p).0.items, key);
            if p.ToolEvent? && p.tool.id == id
            then now == Some(ToolItem(FoldTool(Lookup(c.items, key), p.tool)))
            else now == Lookup(c.items, key) || now.None?
  {
    hide FoldTool, ApplyDelta, EndStreaming, UpsertCapped, AttachUsage, Distinct;
    var key := ToolKey(id);
    match p
    case MessageEvent(m) => LookupUpsertCapped(c.items, MessageItem(m), key);
    case AssistantDelta(mid, text) => PatchesKeepTools(c.items, mid, text, false, key);
    case ReasoningDelta(mid, text) => PatchesKeepTools(c.items, mid, text, true, key);
    case AssistantEnd(mid) => PatchesKeepTools(c.items, mid, "", false, key);
    case ToolEvent(phase, t) =>
      FoldedId(c.items, t);
      LookupUpsertCapped(c.items, ToolItem(FoldTool(Lookup(c.items, ToolKey(t.id)), t)), key);
    case TransferEvent(x) => LookupUpsertCapped(c.items, TransferItem(x), key);
    case NoticeEvent(n) => LookupUpsertCapped(c.items, NoticeItem(n), key);
    case UsageEvent(usage, last) =>
      if last.Some? {
        AttachUsageKeepsIds(c.items, last.value);
        LookupPointwise(c.items, AttachUsage(c.items, last.value), key);
      }
    case _ =>
  }

  lemma FoldedId(items: seq<Item>, t: Tool)
    ensures FoldTool(Lookup(items, ToolKey(t.id)), t).id == t.id
  {
    KeyFixesKind(items, t.id);
  }

  lemma PatchesKeepTools(items: seq<Item>, mid: string, text: string, reasoning: bool, key: Key)
    requires key.ToolKey?
    ensures Lookup(ApplyDelta(items, mid, text, reasoning), key) == Lookup(items, key)
    ensures Lookup(EndStreaming(items, mid), key) == Lookup(items, key)
  {
    PatchKeepsTools(items, mid, key);
    hide Upsert;
  }

  lemma PatchKeepsTools(items: seq<Item>, mid: string, key: Key)
    requires key.ToolKey?
    ensures forall m: Message :: m.id == mid ==> Lookup(Upsert(items, MessageItem(m)), key) == Lookup(items, key)
    ensures var m := Lookup(items, MessageKey(mid));
            m.Some? ==> m.value.MessageItem? && m.value.message.id == mid
  {
    KeyFixesKind(items, mid);
    forall m: Message | m.id == mid ensures Lookup(Upsert(items, MessageItem(m)), key) == Lookup(items, key) {
      LookupUpsert(items, MessageItem(m), key);
    }
  }

  /** From its first event on, the item was never dropped. */
  ghost predicate NeverEvicted(c: Chat, events: seq<Payload>, id: string) {
    forall n :: 0 <= n <= |events| && EventsFor(events[..n], id) != []
                ==> Lookup(Run(c, events[..n]).items, ToolKey(id)).Some?
  }

  /** What is stored under a tool's key after its events `own`. */
  function Slot(own: seq<Tool>): Option<Item> {
    if own == [] then None else Some(ToolItem(Folded(own)))
  }

  lemma SlotFollows(c: Chat, p: Payload, id: string, own: seq<Tool>)
    requires Distinct(c.items)
    requires Lookup(c.items, ToolKey(id)) == Slot(own)
    requires own != [] ==> Lookup(Apply(c, p).0.items, ToolKey(id)).Some?
    ensures Lookup(Apply(c, p).0.items, ToolKey(id)) ==
            Slot(own + if p.ToolEvent? && p.tool.id == id then [p.tool] else [])
  {
    SlotStep(c, p, id);
    if p.ToolEvent? && p.tool.id == id {
      assert (own + [p.tool])[..|own|] == own;
    } else {
      assert own + [] == own;
    }
  }

  /** In a whole timeline, a tool first inserted by an event and never evicted
      is exactly the fold of its own events, whatever came between them. */
  lemma {:induction false} ToolOverRun(c: Chat, events: seq<Payload>, id: string)
    requires Distinct(c.items) && |c.items| <= MAX_ITEMS
    requires Lookup(c.items, ToolKey(id)).None?
    requires NeverEvicted(c, events, id)
    ensures Lookup(Run(c, events).items, ToolKey(id)) == Slot(EventsFor(events, id))
  {
    if events != [] {
      var prefix, last := events[..|events| - 1], events[|events| - 1];
      forall n | 0 <= n <= |prefix| && EventsFor(prefix[..n], id) != []
        ensures Lookup(Run(c, prefix[..n]).items, ToolKey(id)).Some?
      {
        assert prefix[..n] == events[..n];
      }
      ToolOverRun(c, prefix, id);
      RunKeepsDistinct(c, prefix);
      assert events[..|events|] == events;
      SlotFollows(Run(c, prefix), last, id, EventsFor(prefix, id));
    }
  }

  /** So in a whole timeline a tool that is never evicted says what its own
      events told: their last state, the latest of each field, the latest
      output. */
  lemma ToolTells(c: Chat, events: seq<Payload>, id: string)
    requires Distinct(c.items) && |c.items| <= MAX_ITEMS
    requires Lookup(c.items, ToolKey(id)).None? && NeverEvicted(c, events, id)
    ensures var own, found := EventsFor(events, id), Lookup(Run(c, events).items, ToolKey(id));
            && (found.None? <==> own == [])
            && (own != [] ==>
                  && found.value.ToolItem? && Tells(found.value.tool, own)
                  && (Measurable(own) ==> Shows(found.value.tool, LatestRaw(own), PrintedCount(own))))
  {
    hide Tells, Shows, Measurable, NeverEvicted, Distinct;
    ToolOverRun(c, events, id);
    var own := EventsFor(events, id);
    if own != [] {
      FoldedTells(own);
      if Measurable(own) { StoredPreview(own); }
    }
  }
}
