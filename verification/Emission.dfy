/** What a chat emits of the events it is given: every text, thought, message
    and note, once, and what came through the runs in order. */
module Emission {
  import opened Protocol
  import opened Preview
  import opened RunLifecycle
  import opened Bracketing

  /** What a reader of the conversation gets to see. */
  datatype Content = Text(agentText: string) | Thought(thought: string) | Said(userText: string, createdAt: string)

  function OneOut(p: Payload): seq<Content> {
    match p
    case AssistantDelta(_, text) => [Text(text)]
    case ReasoningDelta(_, text) => [Thought(text)]
    case MessageEvent(m) => if m.role == "user" then [Said(m.text, m.createdAt)] else []
    case _ => []
  }

  function Shown(ps: seq<Payload>): seq<Content> {
    if ps == [] then [] else OneOut(ps[0]) + Shown(ps[1..])
  }

  function OneIn(ev: StreamEvent): seq<Content> {
    match ev
    case Choice(_, text, _, _) => [Text(text)]
    case Reasoning(_, text, _, _) => [Thought(text)]
    case User(_, text, createdAt) => [Said(text, createdAt)]
    case _ => []
  }

  /** The payloads that are passed on as they are. */
  function Notes(ps: seq<Payload>): multiset<Payload> {
    if ps == [] then multiset{} else (if Neutral(ps[0]) then multiset{ps[0]} else multiset{}) + Notes(ps[1..])
  }

  function NoteIn(ev: StreamEvent): multiset<Payload> {
    match ev
    case Boundary(p) => multiset{p}
    case Plain(p) => multiset{p}
    case _ => multiset{}
  }

  lemma {:induction false} Joins(a: seq<Payload>, b: seq<Payload>)
    ensures Shown(a + b) == Shown(a) + Shown(b) && Notes(a + b) == Notes(a) + Notes(b)
    decreases |a|
  {
    hide OneOut, Neutral;
    if a == [] {
      assert a + b == b;
    } else {
      assert (a + b)[1..] == a[1..] + b;
      Joins(a[1..], b);
    }
  }

  lemma One(p: Payload)
    ensures Shown([p]) == OneOut(p) && Notes([p]) == if Neutral(p) then multiset{p} else multiset{}
    ensures Shown([]) == [] && Notes([]) == multiset{}
  {
    assert [p][1..] == [];
    assert OneOut(p) + Shown([]) == OneOut(p);
  }

  /** Handling an event emits what it says and nothing else. */
  lemma OutputShows(c: Core, ev: StreamEvent)
    requires WellFormed(ev)
    ensures Shown(Output(c, ev)) == OneIn(ev) && Notes(Output(c, ev)) == NoteIn(ev)
  {
    hide AssistantId, Decimal, Shown, Notes, UserId;
    match ev {
      case Choice(_, text, _, _) => OpeningShows(c, ev, AssistantDelta(Ensured(c).cur, text));
      case Reasoning(_, text, _, _) => OpeningShows(c, ev, ReasoningDelta(Ensured(c).cur, text));
      case User(_, _, _) => EndingShows(c, MessageEvent(UserMessage(c, ev)));
      case Boundary(p) => EndingShows(c, p);
      case Plain(p) => One(p);
    }
  }

  lemma OpeningShows(c: Core, ev: StreamEvent, delta: Payload)
    requires ev.Choice? || ev.Reasoning?
    ensures var opening := if c.cur == "" then [MessageEvent(OpenMessage(c, ev))] else [];
            Shown(opening + [delta]) == Shown([delta]) && Notes(opening + [delta]) == Notes([delta])
    ensures Shown([delta]) == OneOut(delta) && Notes([delta]) == if Neutral(delta) then multiset{delta} else multiset{}
  {
    hide AssistantId, Shown, Notes;
    var m := MessageEvent(OpenMessage(c, ev));
    One(m);
    One(delta);
    Joins([m], [delta]);
    assert [] + [delta] == [delta];
  }

  lemma EndingShows(c: Core, p: Payload)
    ensures Shown(EndOf(c) + [p]) == OneOut(p)
    ensures Notes(EndOf(c) + [p]) == if Neutral(p) then multiset{p} else multiset{}
  {
    hide Shown, Notes;
    One(AssistantEnd(c.cur));
    One(p);
    Joins(EndOf(c), [p]);
  }

  // ------------------------------------------------------------- whole runs

  /** What the steps so far brought: events yielded by a run that was current on
      an open chat, and payloads from the background of an open chat. */
  ghost function Came(sess: string, run: seq<Step>): seq<Content>
    requires Legal(sess, run)
  {
    if run == [] then []
    else
      var init, last := run[..|run| - 1], run[|run| - 1];
      Came(sess, init) + if Takes(After(sess, init), last) then OneIn(last.ev) else []
  }

  ghost function NotesCame(sess: string, run: seq<Step>): multiset<Payload>
    requires Legal(sess, run)
  {
    if run == [] then multiset{}
    else
      var init, last := run[..|run| - 1], run[|run| - 1];
      NotesCame(sess, init) + NotesIn(After(sess, init), last)
  }

  function NotesIn(w: World, s: Step): multiset<Payload> {
    if Takes(w, s) then NoteIn(s.ev)
    else if s.Background? && !w.core.closed then multiset{s.p}
    else multiset{}
  }

  predicate Takes(w: World, s: Step) { s.Yield? && w.core.generation == s.gen && !w.core.closed }

  /** The event that the current run has in hand. */
  function InHand(w: World): Option<StreamEvent> {
    if w.core.generation in w.runs && w.runs[w.core.generation].Handling?
    then Some(w.runs[w.core.generation].ev) else None
  }

  function HandShown(w: World): seq<Content> { match InHand(w) case Some(ev) => OneIn(ev) case None => [] }

  function HandNotes(w: World): multiset<Payload> {
    match InHand(w) case Some(ev) => NoteIn(ev) case None => multiset{}
  }

  function AllShown(w: World): seq<Content> { Shown(w.trace) + Shown(Owed(w)) + HandShown(w) }

  function AllNotes(w: World): multiset<Payload> { Notes(w.trace) + Notes(Owed(w)) + HandNotes(w) }

  ghost predicate Grows(w: World, z: World, more: seq<Content>, notes: multiset<Payload>) {
    AllShown(z) == AllShown(w) + more && AllNotes(z) == AllNotes(w) + notes
  }

  lemma Unmoved(w: World, z: World)
    requires z.trace == w.trace && Owed(z) == Owed(w) && InHand(z) == InHand(w)
    ensures Grows(w, z, [], multiset{})
  {
  }

  lemma YieldGrows(w: World, s: Step)
    requires Can(w, s) && Takes(w, s)
    ensures Grows(w, Next(w, s), OneIn(s.ev), NoteIn(s.ev))
  {
    One(Bare);
    hide OneIn, NoteIn, Shown, Notes;
  }

  lemma HandleGrows(w: World, gen: nat)
    requires Can(w, Handle(gen)) && gen == w.core.generation && WellFormed(w.runs[gen].ev)
    ensures Grows(w, Next(w, Handle(gen)), [], multiset{})
  {
    hide OneIn, NoteIn, Shown, Notes, Handled, Output, WellFormed;
    One(Bare);
    HandledKeeps(w.core, w.runs[gen].ev);
    OutputShows(w.core, w.runs[gen].ev);
  }

  lemma EmitGrows(w: World, gen: nat)
    requires Can(w, Emit(gen)) && gen == w.core.generation && !w.core.closed
    ensures Grows(w, Next(w, Emit(gen)), [], multiset{})
  {
    var rest := RestOf(w, gen);
    hide Shown, Notes;
    Joins(w.trace, [rest[0]]);
    Joins([rest[0]], rest[1..]);
    assert rest == [rest[0]] + rest[1..];
  }

  lemma SameRest(w: World, z: World)
    requires z.core == w.core && z.runs == w.runs
    ensures Owed(z) == Owed(w) && HandShown(z) == HandShown(w) && HandNotes(z) == HandNotes(w)
  {
  }

  lemma AddsOne(a: multiset<Payload>, b: multiset<Payload>, c: multiset<Payload>, p: Payload)
    ensures (a + multiset{p}) + b + c == (a + b + c) + multiset{p}
  {
  }

  lemma BackgroundGrows(w: World, p: Payload)
    requires Neutral(p) && !w.core.closed
    ensures Grows(w, Next(w, Background(p)), [], multiset{p})
  {
    assert OneOut(p) == [];
    One(p);
    Joins(w.trace, [p]);
    var z := Next(w, Background(p));
    assert z == w.(trace := w.trace + [p]);
    SameRest(w, z);
    AddsOne(Notes(w.trace), Notes(Owed(w)), HandNotes(w), p);
    hide Next, Shown, Notes, Neutral, OneOut, Owed, HandShown, HandNotes;
    assert Shown(w.trace) + [] == Shown(w.trace) && AllShown(w) + [] == AllShown(w);
  }

  lemma SettleGrows(w: World, gen: nat)
    requires Can(w, SettleStart(gen)) && OneRun(w) && !w.core.closed
    ensures Grows(w, Next(w, SettleStart(gen)), [], multiset{})
  {
    hide Shown, Notes;
    One(AssistantEnd(w.core.cur));
    assert gen in w.runs;
  }

  lemma StepGrows(w: World, s: Step)
    requires Can(w, s) && OneRun(w) && TraceOk(w) && !Next(w, s).core.closed && !w.core.closed
    ensures Grows(w, Next(w, s), if Takes(w, s) then OneIn(s.ev) else [], NotesIn(w, s))
  {
    hide Grows, OneIn, NoteIn, Handled, Output, WellFormed, Grammar, Feed;
    match s {
      case Yield(gen, ev) => YieldGrows(w, s);
      case Handle(gen) => HandleGrows(w, gen);
      case Emit(gen) => EmitGrows(w, gen);
      case Background(p) => BackgroundGrows(w, p);
      case SettleStart(gen) => SettleGrows(w, gen);
      case SettleFinish(gen) => Unmoved(w, Next(w, s));
      case Begin => BeginUnmoved(w);
      case Decide(_) => Unmoved(w, Next(w, s));
      case Abort => Unmoved(w, Next(w, s));
      case CloseChat =>
    }
  }

  lemma BeginUnmoved(w: World)
    requires Can(w, Begin) && OneRun(w) && !w.core.closed
    ensures Grows(w, Next(w, Begin), [], multiset{})
  {
    assert w.core.generation !in w.runs;
    Unmoved(w, Next(w, Begin));
  }

  lemma StaysClosed(w: World, s: Step)
    requires Can(w, s) && w.core.closed
    ensures Next(w, s).core.closed
  {
    StatusStep(w, s);
  }

  lemma {:induction false} EverythingCame(sess: string, run: seq<Step>)
    requires Legal(sess, run) && Polite(sess, run) && !After(sess, run).core.closed
    ensures AllShown(After(sess, run)) == Came(sess, run)
    ensures AllNotes(After(sess, run)) == NotesCame(sess, run)
  {
    hide OneRun, TraceOk, Next, Can, PoliteStep, AllShown, AllNotes, Takes, OneIn, NoteIn;
    if run == [] {
      assert AllShown(NewWorld(sess)) == [] && AllNotes(NewWorld(sess)) == multiset{} by { NothingShown(sess); }
    } else {
      var init, last := run[..|run| - 1], run[|run| - 1];
      if After(sess, init).core.closed { StaysClosed(After(sess, init), last); }
      EverythingCame(sess, init);
      ReachableOneRun(sess, init);
      ReachableTrace(sess, init);
      StepGrows(After(sess, init), last);
    }
  }

  lemma NothingShown(sess: string)
    ensures AllShown(NewWorld(sess)) == [] && AllNotes(NewWorld(sess)) == multiset{}
  {
  }

  /** An open chat with no event in hand and nothing left to emit has emitted
      every text, thought and user message that its runs yielded, each once and
      in order, and every other payload, each as often as it came. */
  lemma SaysWhatCame(sess: string, run: seq<Step>)
    requires Legal(sess, run) && Polite(sess, run) && !After(sess, run).core.closed
    requires InHand(After(sess, run)).None? && Owed(After(sess, run)) == []
    ensures Shown(After(sess, run).trace) == Came(sess, run)
    ensures Notes(After(sess, run).trace) == NotesCame(sess, run)
  {
    EverythingCame(sess, run);
    One(Bare);
  }

  // -------------------------------------------------------------- the steps

  datatype Kind = Yields | Handles | Emits | Settles

  /** A settling ends with its second half, or with its first if no item is
      open. */
  predicate IsA(w: World, s: Step, kind: Kind) {
    match kind
    case Yields => s.Yield?
    case Handles => s.Handle?
    case Emits => s.Emit? || s.Background?
    case Settles => s.SettleFinish? || (s.SettleStart? && w.core.cur == "")
  }

  ghost function Tally(sess: string, run: seq<Step>, kind: Kind): nat
    requires Legal(sess, run)
  {
    if run == [] then 0
    else
      var init, last := run[..|run| - 1], run[|run| - 1];
      Tally(sess, init, kind) + if IsA(After(sess, init), last, kind) then 1 else 0
  }

  lemma StepCounts(w: World, s: Step)
    requires Can(w, s) && OneRun(w) && PoliteStep(w, s) && !w.core.closed && !Next(w, s).core.closed
    ensures var z := Next(w, s);
            && (if s.Yield? then InHand(w).None? && InHand(z).Some?
                else if s.Handle? then InHand(w).Some? && InHand(z).None?
                else InHand(z).Some? == InHand(w).Some?)
            && |z.trace| == |w.trace| + (if IsA(w, s, Emits) then 1 else 0)
            && |z.runs| == |w.runs| + (if s.Begin? then 1 else 0) - (if IsA(w, s, Settles) then 1 else 0)
  {
    hide Handled, Output, WellFormed, Named;
    if s.Handle? { HandledKeeps(w.core, w.runs[s.gen].ev); }
    KeysCount(w.runs, w.core.generation);
    NextKeepsOneRun(w, s);
    KeysCount(Next(w, s).runs, Next(w, s).core.generation);
  }

  /** Every event that was yielded is handled once, every payload emitted is a
      step, and every run that began settles once: no step does another's work,
      or none. */
  lemma {:induction false} StepsTally(sess: string, run: seq<Step>)
    requires Legal(sess, run) && Polite(sess, run) && !After(sess, run).core.closed
    ensures var w := After(sess, run);
            && Tally(sess, run, Yields) == Tally(sess, run, Handles) + (if InHand(w).Some? then 1 else 0)
            && |w.trace| == Tally(sess, run, Emits)
            && Begins(run) == Tally(sess, run, Settles) + |w.runs|
  {
    if run != [] {
      hide OneRun, Next, Can, PoliteStep, InHand;
      var init, last := run[..|run| - 1], run[|run| - 1];
      if After(sess, init).core.closed { StaysClosed(After(sess, init), last); }
      StepsTally(sess, init);
      ReachableOneRun(sess, init);
      StepCounts(After(sess, init), last);
    }
  }

  // ------------------------------------------------------------ the messages

  /** A choice or a thought is announced by a new message exactly if no item is
      open; the message names its agent, model and time, and the delta that
      follows is for the item that is open then. */
  lemma OpeningSays(c: Core, ev: StreamEvent)
    requires ev.Choice? || ev.Reasoning?
    ensures var out, id := Output(c, ev), Handled(c, ev).cur;
            && (c.cur != "" ==> |out| == 1 && id == c.cur)
            && (c.cur == "" ==>
                  && |out| == 2 && out[0].MessageEvent? && id == c.sess + "-a-" + Decimal(c.assistantSeq + 1)
                  && var m := out[0].message;
                     m.id == id && m.role == "assistant" && m.streaming && m.text == "" && m.reasoning == ""
                     && m.agentName == ev.agentName && m.model == ev.model && m.createdAt == ev.createdAt)
            && out[|out| - 1] == (if ev.Choice? then AssistantDelta(id, ev.text) else ReasoningDelta(id, ev.text))
            && Handled(c, ev) == c.(cur := id, assistantSeq := c.assistantSeq + if c.cur == "" then 1 else 0)
  {
  }

  /** A user message or a tool boundary comes after the end of the open item. */
  lemma EndingSays(c: Core, ev: StreamEvent)
    requires ev.User? || ev.Boundary?
    ensures var out := Output(c, ev);
            && |out| == (if c.cur == "" then 1 else 2)
            && Handled(c, ev) == c.(cur := "", userSeq := c.userSeq + if ev.User? && ev.position < 0 then 1 else 0)
            && (c.cur != "" ==> out[0] == AssistantEnd(c.cur))
            && (ev.Boundary? ==> out[|out| - 1] == ev.after)
            && (ev.User? ==>
                  && out[|out| - 1].MessageEvent?
                  && var m := out[|out| - 1].message;
                     m.id == UserId(c, ev.position) && m.role == "user" && !m.streaming && m.text == ev.text
                     && m.reasoning == "" && m.createdAt == ev.createdAt)
  {
  }

  /** The ids of positioned user messages are those positions', and no two
      messages without a position share one. */
  lemma UserIdsDiffer(c: Core, d: Core, p: int, q: int)
    requires c.sess == d.sess && UserId(c, p) == UserId(d, q)
    ensures (p >= 0 <==> q >= 0) && (p >= 0 ==> p == q) && (p < 0 ==> c.userSeq == d.userSeq)
  {
    var n := |c.sess|;
    var a := if p >= 0 then c.sess + "-m-" else c.sess + "-u-";
    var b := if q >= 0 then d.sess + "-m-" else d.sess + "-u-";
    assert UserId(c, p)[n + 1] == a[n + 1] && UserId(d, q)[n + 1] == b[n + 1];
    assert UserId(c, p)[n + 3..] == Decimal(if p >= 0 then p else c.userSeq + 1);
    assert UserId(d, q)[n + 3..] == Decimal(if q >= 0 then q else d.userSeq + 1);
    DecimalInjective(if p >= 0 then p else c.userSeq + 1, if q >= 0 then q else d.userSeq + 1);
  }

  // ---------------------------------------------------- what can be done

  /** In every reachable state of an open chat: a message may be sent unless one
      is on its way, an idle chat then starts a run; a run that is reading takes
      any event, handles it, and may end; the chat may be aborted and closed. */
  lemma StepsArePossible(sess: string, run: seq<Step>, mode: string, ev: StreamEvent)
    requires Legal(sess, run) && !After(sess, run).core.closed && WellFormed(ev)
    ensures Legal(sess, run + [Abort]) && Legal(sess, run + [CloseChat])
    ensures var w := After(sess, run);
            && (!w.starting ==> Legal(sess, run + [Decide(mode)]))
            && (!w.starting && w.core.state == Idle ==> Legal(sess, run + [Decide(mode)] + [Begin]))
            && forall gen :: gen in w.runs && w.runs[gen] == READING && gen == w.core.generation ==>
                 Legal(sess, run + [Yield(gen, ev)] + [Handle(gen)]) && Legal(sess, run + [SettleStart(gen)])
  {
    hide Legal, After, WellFormed, Handled, Output;
    var w := After(sess, run);
    Extend(sess, run, Abort);
    Extend(sess, run, CloseChat);
    Extend(sess, run, Decide(mode));
    if !w.starting { Extend(sess, run + [Decide(mode)], Begin); }
    forall gen | gen in w.runs && w.runs[gen] == READING && gen == w.core.generation
      ensures Legal(sess, run + [Yield(gen, ev)] + [Handle(gen)]) && Legal(sess, run + [SettleStart(gen)])
    {
      Extend(sess, run, Yield(gen, ev));
      Extend(sess, run + [Yield(gen, ev)], Handle(gen));
      Extend(sess, run, SettleStart(gen));
    }
  }
}
