/** The grammar of the events a chat emits, and what folding them leaves
    streaming. */
module Bracketing {
  import opened Protocol
  import opened Preview
  import opened Timeline
  import opened RunLifecycle
  import ToolPreview

  /** Where a trace stands: broken, or with at most one assistant item open and
      a record of every item opened so far. */
  datatype Bracket = Broken | At(open: Option<string>, past: seq<string>)

  /** An item is opened once and only when none is open, is extended only while
      open, and is ended once; a user message ends up between items. */
  function Feed(b: Bracket, p: Payload): Bracket {
    match b
    case Broken => Broken
    case At(open, past) =>
      match p
      case MessageEvent(m) =>
        if m.role == "assistant" then
          if open.None? && m.streaming && m.text == "" && m.reasoning == "" && m.id !in past
          then At(Some(m.id), past + [m.id])
          else Broken
        else if open.None? && !m.streaming && m.id !in past then b else Broken
      case AssistantDelta(id, _) => if open == Some(id) then b else Broken
      case ReasoningDelta(id, _) => if open == Some(id) then b else Broken
      case AssistantEnd(id) => if open == Some(id) then At(None, past) else Broken
      case _ => b
  }

  function Grammar(trace: seq<Payload>): Bracket {
    if trace == [] then At(None, []) else Feed(Grammar(trace[..|trace| - 1]), trace[|trace| - 1])
  }

  function FeedAll(b: Bracket, ps: seq<Payload>): Bracket
    decreases |ps|
  {
    if ps == [] then b else FeedAll(Feed(b, ps[0]), ps[1..])
  }

  lemma FeedFew(b: Bracket, x: Payload, y: Payload)
    ensures FeedAll(b, [x]) == Feed(b, x)
    ensures FeedAll(b, [x] + [y]) == Feed(Feed(b, x), y)
  {
    hide Feed;
    assert [x][1..] == [];
    assert ([x] + [y])[1..] == [y] && [y][1..] == [];
    assert FeedAll(Feed(b, x), [y]) == FeedAll(Feed(Feed(b, x), y), []);
  }

  lemma {:induction false} GrammarAppend(trace: seq<Payload>, ps: seq<Payload>)
    ensures Grammar(trace + ps) == FeedAll(Grammar(trace), ps)
    decreases |ps|
  {
    if ps == [] {
      assert trace + ps == trace;
    } else {
      assert (trace + [ps[0]])[..|trace|] == trace;
      assert trace + ps == trace + [ps[0]] + ps[1..];
      GrammarAppend(trace + [ps[0]], ps[1..]);
    }
  }

  /** The ids of the first `n` assistant items. */
  function AssistantIds(sess: string, n: nat): (ids: seq<string>)
    ensures |ids| == n
  {
    if n == 0 then [] else AssistantIds(sess, n - 1) + [AssistantId(sess, n)]
  }

  lemma {:induction false} AssistantIdsAt(sess: string, n: nat, id: string)
    requires id in AssistantIds(sess, n)
    ensures exists k :: 1 <= k <= n && id == AssistantId(sess, k)
  {
    if id != AssistantId(sess, n) { AssistantIdsAt(sess, n - 1, id); }
  }

  lemma NextIdIsNew(sess: string, n: nat)
    ensures AssistantId(sess, n + 1) !in AssistantIds(sess, n) && AssistantId(sess, n + 1) != ""
  {
    var id := AssistantId(sess, n + 1);
    if id in AssistantIds(sess, n) {
      AssistantIdsAt(sess, n, id);
      var k :| 1 <= k <= n && id == AssistantId(sess, k);
      assert id[|sess + "-a-"|..] == Decimal(n + 1) && AssistantId(sess, k)[|sess + "-a-"|..] == Decimal(k);
      DecimalInjective(k, n + 1);
    }
  }

  lemma UserIdIsOther(c: Core, position: int, n: nat)
    ensures UserId(c, position) !in AssistantIds(c.sess, n)
  {
    hide Decimal;
    AssistantLetter(c.sess, n);
    assert |UserId(c, position)| > |c.sess| + 1 && UserId(c, position)[|c.sess| + 1] != 'a';
  }

  lemma {:induction false} AssistantLetter(sess: string, n: nat)
    ensures forall id :: id in AssistantIds(sess, n) ==> |id| > |sess| + 1 && id[|sess| + 1] == 'a'
  {
    hide Decimal;
    if n > 0 { AssistantLetter(sess, n - 1); }
  }

  // --------------------------------------------------------- the invariant

  function Open(c: Core): Option<string> { if c.cur == "" then None else Some(c.cur) }

  /** What the one unsettled run has yet to emit. */
  function Owed(w: World): seq<Payload> { RestOf(w, w.core.generation) }

  ghost predicate TraceOk(w: World) {
    && Grammar(w.trace) != Broken
    && (!w.core.closed ==>
          && FeedAll(Grammar(w.trace), Owed(w)) == At(Open(w.core), AssistantIds(w.core.sess, w.core.assistantSeq))
          && (w.core.state == Idle ==> w.core.cur == ""))
    && (forall gen :: gen in w.runs && w.runs[gen].Handling? ==> WellFormed(w.runs[gen].ev))
    && (forall gen :: gen in w.runs && w.runs[gen].Ending? && !w.core.closed ==> w.core.cur == "")
  }

  lemma NeutralFeeds(b: Bracket, p: Payload)
    requires Neutral(p)
    ensures Feed(b, p) == b
  {
  }

  /** What one handled event will emit takes the grammar from the old open item
      to the new one. */
  lemma OutputFeeds(c: Core, ev: StreamEvent)
    requires WellFormed(ev)
    ensures var d := Handled(c, ev);
            FeedAll(At(Open(c), AssistantIds(c.sess, c.assistantSeq)), Output(c, ev))
            == At(Open(d), AssistantIds(d.sess, d.assistantSeq))
  {
    var b := At(Open(c), AssistantIds(c.sess, c.assistantSeq));
    match ev {
      case Choice(_, text, _, _) => ChoiceFeeds(c, ev, AssistantDelta(Ensured(c).cur, text));
      case Reasoning(_, text, _, _) => ChoiceFeeds(c, ev, ReasoningDelta(Ensured(c).cur, text));
      case User(position, _, _) =>
        UserIdIsOther(c, position, c.assistantSeq);
        EndThenFeeds(c, b, MessageEvent(UserMessage(c, ev)));
      case Boundary(p) =>
        EndThenFeeds(c, b, p);
      case Plain(p) =>
        FeedFew(b, p, p);
    }
  }

  lemma EndThenFeeds(c: Core, b: Bracket, p: Payload)
    requires b.At? && b.open == Open(c)
    requires Feed(At(None, b.past), p) == At(None, b.past)
    ensures FeedAll(b, EndOf(c) + [p]) == At(None, b.past)
  {
    FeedFew(b, AssistantEnd(c.cur), p);
    FeedFew(b, p, p);
    assert [] + [p] == [p];
  }

  lemma ChoiceFeeds(c: Core, ev: StreamEvent, delta: Payload)
    requires ev.Choice? || ev.Reasoning?
    requires (delta.AssistantDelta? || delta.ReasoningDelta?) && delta.itemId == Ensured(c).cur
    ensures var d := Ensured(c);
            var opening := if c.cur == "" then [MessageEvent(OpenMessage(c, ev))] else [];
            FeedAll(At(Open(c), AssistantIds(c.sess, c.assistantSeq)), opening + [delta])
            == At(Open(d), AssistantIds(d.sess, d.assistantSeq))
  {
    hide AssistantId;
    var b := At(Open(c), AssistantIds(c.sess, c.assistantSeq));
    NextIdIsNew(c.sess, c.assistantSeq);
    FeedFew(b, MessageEvent(OpenMessage(c, ev)), delta);
    FeedFew(b, delta, delta);
    assert [] + [delta] == [delta];
  }

  lemma EmittedFeeds(w: World, p: Payload)
    ensures Grammar(Emitted(w, p).trace) == if w.core.closed then Grammar(w.trace) else Feed(Grammar(w.trace), p)
  {
    assert (w.trace + [p])[..|w.trace|] == w.trace;
  }

  lemma {:induction false} FeedBroken(ps: seq<Payload>)
    ensures FeedAll(Broken, ps) == Broken
  {
    if ps != [] { FeedBroken(ps[1..]); }
  }

  lemma EmitKeepsTrace(w: World, gen: nat)
    requires TraceOk(w) && OneRun(w) && Can(w, Emit(gen))
    ensures TraceOk(Next(w, Emit(gen)))
  {
    hide Grammar, Feed, AssistantIds;
    var rest := RestOf(w, gen);
    var z := Next(w, Emit(gen));
    EmittedFeeds(w, rest[0]);
    if !w.core.closed {
      assert gen == w.core.generation && Owed(z) == rest[1..];
      FeedBroken(rest[1..]);
    }
  }

  lemma HandleKeepsTrace(w: World, gen: nat)
    requires TraceOk(w) && OneRun(w) && Can(w, Handle(gen))
    ensures TraceOk(Next(w, Handle(gen)))
  {
    hide Grammar, Feed, AssistantIds, Handled, Output, WellFormed;
    HandledKeeps(w.core, w.runs[gen].ev);
    if !w.core.closed {
      assert gen == w.core.generation && Owed(w) == [];
      OutputFeeds(w.core, w.runs[gen].ev);
      assert w.core.state != Idle;
    }
  }

  lemma SettleKeepsTrace(w: World, gen: nat)
    requires TraceOk(w) && OneRun(w) && Can(w, SettleStart(gen))
    ensures TraceOk(Next(w, SettleStart(gen)))
  {
    hide Grammar, AssistantIds;
    if !w.core.closed {
      assert gen == w.core.generation && Owed(w) == [];
      FeedFew(Grammar(w.trace), AssistantEnd(w.core.cur), AssistantEnd(w.core.cur));
    }
  }

  lemma NextKeepsTrace(w: World, s: Step)
    requires TraceOk(w) && OneRun(w) && Can(w, s) && PoliteStep(w, s)
    ensures TraceOk(Next(w, s))
  {
    match s {
      case Emit(gen) => EmitKeepsTrace(w, gen);
      case Handle(gen) => HandleKeepsTrace(w, gen);
      case SettleStart(gen) => SettleKeepsTrace(w, gen);
      case Background(p) =>
        hide Grammar, Feed, AssistantIds;
        EmittedFeeds(w, p);
        NeutralFeeds(Grammar(w.trace), p);
      case SettleFinish(gen) => QuietKeepsTrace(w, s);
      case _ => QuietKeepsTrace(w, s);
    }
  }

  lemma QuietKeepsTrace(w: World, s: Step)
    requires TraceOk(w) && OneRun(w) && Can(w, s) && PoliteStep(w, s)
    requires s.Decide? || s.Begin? || s.Yield? || s.SettleFinish? || s.Abort? || s.CloseChat?
    ensures TraceOk(Next(w, s))
  {
    hide Grammar, Feed, AssistantIds, WellFormed, Starts, Named;
  }

  lemma {:induction false} ReachableTrace(sess: string, run: seq<Step>)
    requires Legal(sess, run) && Polite(sess, run)
    ensures TraceOk(After(sess, run))
  {
    if run != [] {
      hide OneRun, TraceOk, Next, Can, PoliteStep;
      ReachableTrace(sess, run[..|run| - 1]);
      ReachableOneRun(sess, run[..|run| - 1]);
      NextKeepsTrace(After(sess, run[..|run| - 1]), run[|run| - 1]);
    }
  }

  /** Every emitted trace is well bracketed. When the chat is idle no item is
      open, and every assistant item the chat numbered was opened, in order. */
  lemma TraceIsBracketed(sess: string, run: seq<Step>)
    requires Legal(sess, run) && Polite(sess, run)
    ensures var w := After(sess, run);
            && Grammar(w.trace) != Broken
            && (!w.core.closed && w.core.state == Idle ==>
                  Grammar(w.trace) == At(None, AssistantIds(sess, w.core.assistantSeq)))
  {
    hide Grammar, AssistantIds, Next, Can;
    ReachableTrace(sess, run);
    ReachableOneRun(sess, run);
    SessionFixed(sess, run);
  }

  lemma {:induction false} SessionFixed(sess: string, run: seq<Step>)
    requires Legal(sess, run)
    ensures After(sess, run).core.sess == sess
  {
    if run != [] {
      hide Next, Can;
      SessionFixed(sess, run[..|run| - 1]);
      SessionStep(After(sess, run[..|run| - 1]), run[|run| - 1]);
    }
  }

  lemma SessionStep(w: World, s: Step)
    requires Can(w, s)
    ensures Next(w, s).core.sess == w.core.sess
  {
    hide Output, WellFormed;
  }

  // -------------------------------------------------------- other sources

  /** Normalising an event that comes from outside the run streams, at once,
      keeps the grammar for what is still owed and leaves nothing open on an
      idle chat. */
  ghost predicate BackgroundSafe(w: World, ev: StreamEvent) {
    && FeedAll(Grammar(w.trace + Output(w.core, ev)), Owed(w)) != Broken
    && (Handled(w.core, ev).state == Idle ==> Handled(w.core, ev).cur == "")
  }

  /** Exactly the events that neither open, extend nor close an item are safe
      from the background in every reachable state of an open chat. */
  lemma BackgroundIff(sess: string, ev: StreamEvent)
    requires WellFormed(ev)
    ensures (forall run :: Legal(sess, run) && Polite(sess, run) && !After(sess, run).core.closed ==>
               BackgroundSafe(After(sess, run), ev))
            <==> ev.Plain?
  {
    hide BackgroundSafe, Legal, After, Polite;
    if ev.Plain? {
      forall run | Legal(sess, run) && Polite(sess, run) && !After(sess, run).core.closed
        ensures BackgroundSafe(After(sess, run), ev)
      {
        ReachableTrace(sess, run);
        PlainIsSafe(After(sess, run), ev);
      }
    } else if ev.Choice? || ev.Reasoning? {
      NothingYet(sess);
      OpeningWhileIdle(sess, ev);
    } else {
      var run := MidTurn(sess);
      ClosingMidTurn(After(sess, run), ev);
    }
  }

  lemma PlainIsSafe(w: World, ev: StreamEvent)
    requires TraceOk(w) && !w.core.closed && ev.Plain? && WellFormed(ev)
    ensures BackgroundSafe(w, ev)
  {
    hide Grammar, AssistantIds;
    GrammarAppend(w.trace, [ev.out]);
    FeedFew(Grammar(w.trace), ev.out, ev.out);
    NeutralFeeds(Grammar(w.trace), ev.out);
  }

  /** An item opened on an idle chat has no run whose settling would end it. */
  lemma OpeningWhileIdle(sess: string, ev: StreamEvent)
    requires ev.Choice? || ev.Reasoning?
    ensures !BackgroundSafe(NewWorld(sess), ev)
  {
    NextIdIsNew(sess, 0);
  }

  /** An item closed between its opening and a delta that a run still owes. */
  lemma ClosingMidTurn(w: World, ev: StreamEvent)
    requires w.trace == [] && w.core.cur != "" && (ev.User? || ev.Boundary?)
    ensures !BackgroundSafe(w, ev)
  {
    var out := Output(w.core, ev);
    var end := AssistantEnd(w.core.cur);
    assert out == [end] + out[1..];
    assert [] + out == out;
    GrammarAppend([], out);
    assert Feed(Grammar([]), end) == Broken;
    FeedBroken(out[1..]);
    FeedBroken(Owed(w));
  }

  /** A run that has taken its first choice and emitted nothing yet. */
  lemma MidTurn(sess: string) returns (run: seq<Step>)
    ensures Legal(sess, run) && Polite(sess, run) && !After(sess, run).core.closed
    ensures After(sess, run).trace == [] && After(sess, run).core.cur != ""
  {
    hide Legal, After, Polite, Output, AssistantId;
    var choice := Choice("", "", "", "");
    NothingYet(sess);
    NextIdIsNew(sess, 0);
    run := [];
    run := Take(sess, run, Decide(NORMAL));
    run := Take(sess, run, Begin);
    run := Take(sess, run, Yield(1, choice));
    run := Take(sess, run, Handle(1));
  }

  lemma Take(sess: string, run: seq<Step>, s: Step) returns (longer: seq<Step>)
    requires Legal(sess, run) && Polite(sess, run) && Can(After(sess, run), s) && PoliteStep(After(sess, run), s)
    ensures Legal(sess, longer) && Polite(sess, longer) && After(sess, longer) == Next(After(sess, run), s)
  {
    hide Next, Can, PoliteStep;
    PoliteGrows(sess, run, s);
    Extend(sess, run, s);
    longer := run + [s];
  }

  // ---------------------------------------------------------- what it leaves

  predicate Streams(x: Item) { x.MessageItem? && x.message.streaming }

  /** Every streaming message is the open one. */
  ghost predicate OnlyOpenStreams(items: seq<Item>, open: Option<string>) {
    forall x :: x in items && Streams(x) ==> open == Some(x.message.id)
  }

  ghost predicate Sound(c: Chat) { Distinct(c.items) && |c.items| <= MAX_ITEMS }

  /** What an upsert leaves under the item's identity is the item. */
  lemma UpsertCappedFrom(items: seq<Item>, it: Item)
    requires Distinct(items)
    ensures forall x :: x in UpsertCapped(items, it) ==> x == it || (x in items && ItemId(x) != ItemId(it))
  {
    LookupFinds(items, ItemId(it));
    if Lookup(items, ItemId(it)).None? {
      UpsertNew(items, it);
      hide ItemId, Upsert, Lookup;
    } else {
      UpsertFrom(items, it);
    }
  }

  lemma UpsertFrom(items: seq<Item>, it: Item)
    requires Distinct(items) && Lookup(items, ItemId(it)).Some?
    ensures forall x :: x in Upsert(items, it) ==> x == it || (x in items && ItemId(x) != ItemId(it))
  {
    LookupFinds(items, ItemId(it));
    var pos :| 0 <= pos < |items| && ItemId(items[pos]) == ItemId(it);
    UpsertAt(items, it, pos);
    hide ItemId, Upsert, Lookup;
  }

  lemma {:induction false} AttachUsageFrom(items: seq<Item>, u: MessageUsage)
    ensures forall i :: 0 <= i < |items| ==>
              var y := AttachUsage(items, u)[i];
              y == items[i] || (items[i].MessageItem? && y == MessageItem(WithUsage(items[i].message, u)))
  {
    if items != [] && !IsAssistant(items[|items| - 1]) {
      AttachUsageFrom(items[..|items| - 1], u);
    }
  }

  /** One event keeps the open item the only streaming one. */
  lemma StreamsStep(c: Chat, b: Bracket, p: Payload)
    requires Sound(c) && b.At? && OnlyOpenStreams(c.items, b.open) && Feed(b, p).At?
    ensures OnlyOpenStreams(Apply(c, p).0.items, Feed(b, p).open)
  {
    match p {
      case MessageEvent(m) => UpsertCappedFrom(c.items, MessageItem(m));
      case AssistantDelta(id, text) => DeltaFrom(c.items, id, text, false);
      case ReasoningDelta(id, text) => DeltaFrom(c.items, id, text, true);
      case AssistantEnd(id) => EndFrom(c.items, id);
      case ToolEvent(phase, t) => UpsertCappedFrom(c.items, ToolItem(FoldTool(Lookup(c.items, ToolKey(t.id)), t)));
      case TransferEvent(x) => UpsertCappedFrom(c.items, TransferItem(x));
      case NoticeEvent(n) => UpsertCappedFrom(c.items, NoticeItem(n));
      case UsageEvent(usage, last) => if last.Some? { AttachUsageFrom(c.items, last.value); }
      case _ =>
    }
  }

  lemma DeltaFrom(items: seq<Item>, id: string, text: string, reasoning: bool)
    requires Distinct(items)
    ensures forall x :: x in ApplyDelta(items, id, text, reasoning) ==>
              x in items || (x.MessageItem? && x.message.id == id)
  {
    KeyFixesKind(items, id);
    match Lookup(items, MessageKey(id))
    case Some(MessageItem(m)) =>
      UpsertFrom(items, MessageItem(if reasoning then m.(reasoning := m.reasoning + text, streaming := true)
                                    else m.(text := m.text + text, streaming := true)));
    case _ =>
  }

  lemma EndFrom(items: seq<Item>, id: string)
    requires Distinct(items)
    ensures forall x :: x in EndStreaming(items, id) && Streams(x) ==> x in items && x.message.id != id
  {
    KeyFixesKind(items, id);
    LookupFinds(items, MessageKey(id));
    match Lookup(items, MessageKey(id))
    case Some(MessageItem(m)) => UpsertFrom(items, MessageItem(m.(streaming := false)));
    case _ =>
  }

  /** Folding a bracketed trace onto a timeline with nothing streaming leaves
      the open item the only one that streams. */
  lemma {:induction false} FoldStreams(c: Chat, trace: seq<Payload>)
    requires Sound(c) && OnlyOpenStreams(c.items, None) && Grammar(trace).At?
    ensures OnlyOpenStreams(Run(c, trace).items, Grammar(trace).open)
  {
    if trace != [] {
      hide Feed, Apply, OnlyOpenStreams, Distinct;
      var init, last := trace[..|trace| - 1], trace[|trace| - 1];
      if Grammar(init) == Broken { BrokenStays(last); }
      FoldStreams(c, init);
      RunKeepsDistinct(c, init);
      StreamsStep(Run(c, init), Grammar(init), last);
    }
  }

  lemma BrokenStays(p: Payload)
    ensures Feed(Broken, p) == Broken
  {
  }

  /** At any moment of any run at most one message of the folded timeline is
      streaming, and none while the open chat is idle. */
  lemma AtMostOneStreams(sess: string, run: seq<Step>, c: Chat)
    requires Legal(sess, run) && Polite(sess, run) && Sound(c) && OnlyOpenStreams(c.items, None)
    ensures var w := After(sess, run);
            var items := Run(c, w.trace).items;
            && (forall i, j :: 0 <= i < |items| && 0 <= j < |items| && Streams(items[i]) && Streams(items[j]) ==>
                  i == j)
            && (!w.core.closed && w.core.state == Idle ==> forall x :: x in items ==> !Streams(x))
  {
    TraceIsBracketed(sess, run);
    hide Grammar, Legal, After, Polite, AssistantIds;
    var w := After(sess, run);
    FoldStreams(c, w.trace);
    RunKeepsDistinct(c, w.trace);
    var items := Run(c, w.trace).items;
    forall i, j | 0 <= i < |items| && 0 <= j < |items| && Streams(items[i]) && Streams(items[j])
      ensures i == j
    {
      assert items[i] in items && items[j] in items;
      assert ItemId(items[i]) == ItemId(items[j]);
    }
  }

  // ------------------------------------------------------------------ texts

  /** Everything streamed into an item. */
  function TextOf(trace: seq<Payload>, id: string): string {
    if trace == [] then "" else
      var last := trace[|trace| - 1];
      TextOf(trace[..|trace| - 1], id) + if last.AssistantDelta? && last.itemId == id then last.text else ""
  }

  function ReasoningOf(trace: seq<Payload>, id: string): string {
    if trace == [] then "" else
      var last := trace[|trace| - 1];
      ReasoningOf(trace[..|trace| - 1], id) + if last.ReasoningDelta? && last.itemId == id then last.text else ""
  }

  lemma {:induction false} OpenIsPast(trace: seq<Payload>)
    requires Grammar(trace).At?
    ensures Grammar(trace).open.Some? ==> Grammar(trace).open.value in Grammar(trace).past
  {
    if trace != [] {
      if Grammar(trace[..|trace| - 1]) == Broken { BrokenStays(trace[|trace| - 1]); }
      OpenIsPast(trace[..|trace| - 1]);
    }
  }

  /** Nothing is streamed into an item that was never opened. */
  lemma {:induction false} NothingBeforeOpening(trace: seq<Payload>, id: string)
    requires Grammar(trace).At? && id !in Grammar(trace).past
    ensures TextOf(trace, id) == "" && ReasoningOf(trace, id) == ""
  {
    if trace != [] {
      var init := trace[..|trace| - 1];
      if Grammar(init) == Broken { BrokenStays(trace[|trace| - 1]); }
      OpenIsPast(init);
      NothingBeforeOpening(init, id);
    }
  }

  /** The item holds exactly this text, if the timeline still lists it. */
  ghost predicate Holds(items: seq<Item>, id: string, text: string, reasoning: string) {
    var found := Lookup(items, MessageKey(id));
    found.Some? ==> found.value.MessageItem? && found.value.message.text == text
                    && found.value.message.reasoning == reasoning
  }

  lemma LookupAt(items: seq<Item>, i: nat)
    requires Distinct(items) && i < |items|
    ensures Lookup(items, ItemId(items[i])) == Some(items[i])
  {
    UpsertAt(items, items[i], i);
  }

  lemma UsageHolds(items: seq<Item>, u: MessageUsage, id: string, text: string, reasoning: string)
    requires Distinct(items) && Holds(items, id, text, reasoning)
    ensures Holds(AttachUsage(items, u), id, text, reasoning)
  {
    var z := AttachUsage(items, u);
    AttachUsageFrom(items, u);
    AttachUsageKeepsIds(items, u);
    LookupFinds(z, MessageKey(id));
    if Lookup(z, MessageKey(id)).Some? {
      var i :| 0 <= i < |z| && ItemId(z[i]) == MessageKey(id);
      LookupAt(z, i);
      LookupAt(items, i);
    }
  }

  lemma DeltaHolds(items: seq<Item>, mid: string, more: string, isReasoning: bool,
                   id: string, text: string, reasoning: string)
    requires Distinct(items) && Holds(items, id, text, reasoning)
    ensures Holds(ApplyDelta(items, mid, more, isReasoning), id,
                  text + (if mid == id && !isReasoning then more else ""),
                  reasoning + (if mid == id && isReasoning then more else ""))
  {
    KeyFixesKind(items, mid);
    assert text + "" == text && reasoning + "" == reasoning;
    match Lookup(items, MessageKey(mid))
    case Some(MessageItem(m)) =>
      LookupUpsert(items, MessageItem(if isReasoning then m.(reasoning := m.reasoning + more, streaming := true)
                                      else m.(text := m.text + more, streaming := true)), MessageKey(id));
    case _ =>
  }

  lemma TextStep(c: Chat, p: Payload, id: string, text: string, reasoning: string)
    requires Sound(c) && Holds(c.items, id, text, reasoning)
    requires p.MessageEvent? ==> p.message.id != id
    ensures Holds(Apply(c, p).0.items, id,
                  text + (if p.AssistantDelta? && p.itemId == id then p.text else ""),
                  reasoning + (if p.ReasoningDelta? && p.itemId == id then p.text else ""))
  {
    hide ItemId, FoldTool;
    assert text + "" == text && reasoning + "" == reasoning;
    match p {
      case MessageEvent(m) => OtherHolds(c.items, MessageItem(m), id, text, reasoning);
      case AssistantDelta(mid, more) => DeltaHolds(c.items, mid, more, false, id, text, reasoning);
      case ReasoningDelta(mid, more) => DeltaHolds(c.items, mid, more, true, id, text, reasoning);
      case AssistantEnd(mid) => EndHolds(c.items, mid, id, text, reasoning);
      case ToolEvent(phase, t) =>
        OtherHolds(c.items, ToolItem(FoldTool(Lookup(c.items, ToolKey(t.id)), t)), id, text, reasoning);
      case TransferEvent(x) => OtherHolds(c.items, TransferItem(x), id, text, reasoning);
      case NoticeEvent(n) => OtherHolds(c.items, NoticeItem(n), id, text, reasoning);
      case UsageEvent(usage, last) => if last.Some? { UsageHolds(c.items, last.value, id, text, reasoning); }
      case _ =>
    }
  }

  lemma OtherHolds(items: seq<Item>, it: Item, id: string, text: string, reasoning: string)
    requires Distinct(items) && Holds(items, id, text, reasoning)
    requires it.MessageItem? ==> it.message.id != id
    ensures Holds(UpsertCapped(items, it), id, text, reasoning)
  {
    ToolPreview.LookupUpsertCapped(items, it, MessageKey(id));
  }

  lemma EndHolds(items: seq<Item>, mid: string, id: string, text: string, reasoning: string)
    requires Distinct(items) && Holds(items, id, text, reasoning)
    ensures Holds(EndStreaming(items, mid), id, text, reasoning)
  {
    KeyFixesKind(items, mid);
    match Lookup(items, MessageKey(mid))
    case Some(MessageItem(m)) => LookupUpsert(items, MessageItem(m.(streaming := false)), MessageKey(id));
    case _ =>
  }

  /** The text an opened item shows is exactly what was streamed into it, for
      as long as the timeline lists it. */
  lemma {:induction false} ItemShowsItsDeltas(c: Chat, trace: seq<Payload>, id: string)
    requires Sound(c) && Grammar(trace).At? && id in Grammar(trace).past
    ensures Holds(Run(c, trace).items, id, TextOf(trace, id), ReasoningOf(trace, id))
  {
    hide Apply, Holds, Distinct;
    var init, last := trace[..|trace| - 1], trace[|trace| - 1];
    if Grammar(init) == Broken { BrokenStays(last); }
    RunKeepsDistinct(c, init);
    if id in Grammar(init).past {
      ItemShowsItsDeltas(c, init, id);
      TextStep(Run(c, init), last, id, TextOf(init, id), ReasoningOf(init, id));
    } else {
      NothingBeforeOpening(init, id);
      OpeningHolds(Run(c, init), last, id);
    }
  }

  lemma OpeningHolds(c: Chat, p: Payload, id: string)
    requires Sound(c) && p.MessageEvent? && p.message.id == id && p.message.text == "" && p.message.reasoning == ""
    ensures Holds(Apply(c, p).0.items, id, "", "")
  {
    ToolPreview.LookupUpsertCapped(c.items, MessageItem(p.message), MessageKey(id));
  }
}
