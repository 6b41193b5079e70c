/** The runtime side of one chat: sending, running, settling, aborting and
    closing, each lock section a step of its own. */
module RunLifecycle {
  import opened Protocol
  import opened Preview

  const NORMAL := "normal"
  const STEER := "steer"
  const FOLLOW_UP := "followUp"

  predicate Named(mode: string) { mode == NORMAL || mode == STEER || mode == FOLLOW_UP }

  /** What the HTTP handler lets through to `Send`. */
  function AdmitMode(mode: string): Option<string> {
    if Named(mode) then Some(mode) else if mode == "" then Some(NORMAL) else None
  }

  /** The fields behind the chat's lock. `run.runId` is written as the
      generation it is built from, 0 for none. An empty `cur` means that no
      assistant item is open. */
  datatype Core = Core(
    sess: string, state: RunState, runId: nat, generation: nat, cur: string,
    assistantSeq: nat, userSeq: nat, closed: bool)

  function NewCore(sess: string): Core { Core(sess, Idle, 0, 0, "", 0, 0, false) }

  function AssistantId(sess: string, k: nat): string { sess + "-a-" + Decimal(k) }

  /** The runtime's own state, not the caller's hint, decides the mode. */
  function Decision(c: Core, preferred: string): string {
    if c.state == Idle then NORMAL else if preferred == NORMAL then STEER else preferred
  }

  /** Steering and follow-ups join the running turn; anything else starts one. */
  predicate Starts(c: Core, preferred: string) {
    Decision(c, preferred) != STEER && Decision(c, preferred) != FOLLOW_UP
  }

  function Started(c: Core): Core {
    c.(generation := c.generation + 1, runId := c.generation + 1, state := Busy, cur := "")
  }

  function Settled(c: Core): Core { c.(state := Idle, runId := 0, cur := "") }

  function Aborted(c: Core): Core { if c.state == Busy then c.(state := Stopping) else c }

  function ClosedCore(c: Core): Core { if c.closed then c else c.(closed := true, generation := c.generation + 1) }

  /** The assistant item that a choice belongs to, opened if there is none. */
  function Ensured(c: Core): Core {
    if c.cur != "" then c else c.(assistantSeq := c.assistantSeq + 1, cur := AssistantId(c.sess, c.assistantSeq + 1))
  }

  // ------------------------------------------------------------ the object

  /** The chat object. Each method is one lock section, except `Send` and
      `Settle`, which string theirs together without interruption. */
  class RuntimeChat {
    const sess: string
    var state: RunState
    var runId: nat
    var generation: nat
    var cur: string
    var assistantSeq: nat
    var userSeq: nat
    var closed: bool
    var ended: seq<string>

    function View(): Core
      reads this
    {
      Core(sess, state, runId, generation, cur, assistantSeq, userSeq, closed)
    }

    constructor (sess: string)
      ensures View() == NewCore(sess) && ended == []
    {
      this.sess := sess;
      state, runId, generation, cur, assistantSeq, userSeq, closed := Idle, 0, 0, "", 0, 0, false;
      ended := [];
    }

    method Begin() returns (gen: nat)
      modifies this
      ensures View() == Started(old(View())) && gen == generation && ended == old(ended)
      ensures generation == old(generation) + 1 && runId == generation && state == Busy && cur == ""
      ensures assistantSeq == old(assistantSeq) && userSeq == old(userSeq) && closed == old(closed)
    {
      generation := generation + 1;
      gen := generation;
      state, runId := Busy, gen;
      cur := "";
    }

    /** The first lock section of `Send`: what the runtime's state makes of the
        wanted mode. */
    method Choose(preferred: string) returns (open: bool, mode: string)
      ensures open == !closed
      ensures open ==> mode == Decision(View(), preferred)
      ensures !open ==> mode == preferred
      ensures open && state == Idle ==> mode == NORMAL
      ensures open && state != Idle ==> mode == if preferred == NORMAL then STEER else preferred
    {
      mode := preferred;
      if closed { return false, mode; }
      if state == Idle {
        mode := NORMAL;
      } else if mode == NORMAL {
        mode := STEER;
      }
      return true, mode;
    }

    /** Both lock sections. `delivered` says whether the runtime takes a steering
        or follow-up message; `run` is the generation started or joined. */
    method Send(preferred: string, delivered: bool) returns (ok: bool, mode: string, queued: bool, run: nat)
      modifies this
      ensures ok == (!old(closed) && (Starts(old(View()), preferred) || delivered))
      ensures Starts(old(View()), preferred) <==> old(state) == Idle || !Named(preferred)
      ensures old(closed) ==> mode == preferred
      ensures !old(closed) && old(state) == Idle ==> mode == NORMAL
      ensures !old(closed) && old(state) != Idle ==> mode == if preferred == NORMAL then STEER else preferred
      ensures ok ==> queued == !Starts(old(View()), preferred) && run == runId
      ensures ok && queued ==> Named(preferred) && mode != NORMAL && run == old(runId)
      ensures ok && !queued ==> run == old(generation) + 1 && state == Busy && cur == ""
      ensures View() == if ok && !queued then Started(old(View())) else old(View())
      ensures ended == old(ended)
    {
      var open;
      open, mode := Choose(preferred);
      if !open { return false, mode, false, 0; }
      if mode == STEER || mode == FOLLOW_UP {
        if !delivered { return false, mode, false, 0; }
        return true, mode, true, runId;
      }
      run := Begin();
      return true, mode, false, run;
    }

    /** The first half of settling. `open` is the item whose end is still to be
        announced; without one the run is idle at once. */
    method SettleFirst(gen: nat) returns (stale: bool, open: string)
      modifies this
      ensures stale == (old(generation) != gen)
      ensures open == if stale then "" else old(cur)
      ensures View() == if stale then old(View())
                        else if open != "" then old(View()).(cur := "")
                        else Settled(old(View()))
      ensures !stale ==> cur == "" && (open == "" ==> state == Idle && runId == 0)
      ensures !stale && open != "" ==> state == old(state) && runId == old(runId)
      ensures ended == old(ended)
    {
      if generation != gen { return true, ""; }
      open := cur;
      stale := false;
      if cur != "" {
        cur := "";
      } else {
        SettleSecond();
      }
    }

    method SettleSecond()
      modifies this
      ensures View() == old(View()).(state := Idle, runId := 0)
      ensures ended == old(ended)
    {
      state, runId := Idle, 0;
    }

    method Settle(gen: nat)
      modifies this
      ensures View() == if old(generation) == gen then Settled(old(View())) else old(View())
      ensures old(generation) == gen ==> state == Idle && runId == 0 && cur == ""
      ensures ended == if old(generation) == gen && old(cur) != "" then old(ended) + [old(cur)] else old(ended)
    {
      var stale, open := SettleFirst(gen);
      if stale { return; }
      if open != "" {
        ended := ended + [open];
        SettleSecond();
      }
    }

    method Abort()
      modifies this
      ensures View() == Aborted(old(View())) && ended == old(ended)
      ensures state == if old(state) == Busy then Stopping else old(state)
    {
      if state == Busy { state := Stopping; }
    }

    method CloseLock()
      modifies this
      ensures View() == ClosedCore(old(View())) && ended == old(ended)
      ensures closed && generation == old(generation) + if old(closed) then 0 else 1
    {
      if closed { return; }
      closed := true;
      generation := generation + 1;
    }

    method EnsureAssistant() returns (id: string, isNew: bool)
      modifies this
      ensures View() == Ensured(old(View())) && id == cur && ended == old(ended)
      ensures isNew == (old(cur) == "")
      ensures id == (if isNew then AssistantId(sess, old(assistantSeq) + 1) else old(cur))
      ensures assistantSeq == old(assistantSeq) + if isNew then 1 else 0
    {
      if cur != "" { return cur, false; }
      assistantSeq := assistantSeq + 1;
      id := AssistantId(sess, assistantSeq);
      cur := id;
      return id, true;
    }

    method CloseAssistant()
      modifies this
      ensures View() == old(View()).(cur := "")
      ensures ended == if old(cur) != "" then old(ended) + [old(cur)] else old(ended)
    {
      var id := cur;
      cur := "";
      if id != "" { ended := ended + [id]; }
    }
  }

  // ---------------------------------------------------------------- events

  /** What a run stream can yield, as far as assistant items are concerned. */
  datatype StreamEvent =
    | Choice(agentName: string, text: string, createdAt: string, model: string)
    | Reasoning(agentName: string, text: string, createdAt: string, model: string)
    | User(position: int, text: string, createdAt: string)
    | Boundary(after: Payload)
    | Plain(out: Payload)

  /** A payload that neither opens, extends nor ends a message. */
  predicate Neutral(p: Payload) {
    !p.MessageEvent? && !p.AssistantDelta? && !p.ReasoningDelta? && !p.AssistantEnd?
  }

  predicate WellFormed(ev: StreamEvent) {
    match ev
    case Boundary(p) => Neutral(p)
    case Plain(p) => Neutral(p)
    case _ => true
  }

  function OpenMessage(c: Core, ev: StreamEvent): Message
    requires ev.Choice? || ev.Reasoning?
  {
    Message(AssistantId(c.sess, c.assistantSeq + 1), "assistant", ev.agentName, "", "", true, ev.createdAt, ev.model,
            [], NO_BILLING)
  }

  function UserId(c: Core, position: int): string {
    if position >= 0 then c.sess + "-m-" + Decimal(position) else c.sess + "-u-" + Decimal(c.userSeq + 1)
  }

  function UserMessage(c: Core, ev: StreamEvent): Message
    requires ev.User?
  {
    Message(UserId(c, ev.position), "user", "", ev.text, "", false, ev.createdAt, "", [], NO_BILLING)
  }

  function EndOf(c: Core): seq<Payload> { if c.cur != "" then [AssistantEnd(c.cur)] else [] }

  /** The lock section of one normalised event. */
  function Handled(c: Core, ev: StreamEvent): Core {
    match ev
    case Choice(_, _, _, _) => Ensured(c)
    case Reasoning(_, _, _, _) => Ensured(c)
    case User(position, _, _) => c.(cur := "", userSeq := if position >= 0 then c.userSeq else c.userSeq + 1)
    case Boundary(_) => c.(cur := "")
    case Plain(_) => c
  }

  /** What it then emits, in order, with the lock released. */
  function Output(c: Core, ev: StreamEvent): seq<Payload> {
    match ev
    case Choice(_, text, _, _) =>
      (if c.cur == "" then [MessageEvent(OpenMessage(c, ev))] else []) + [AssistantDelta(Ensured(c).cur, text)]
    case Reasoning(_, text, _, _) =>
      (if c.cur == "" then [MessageEvent(OpenMessage(c, ev))] else []) + [ReasoningDelta(Ensured(c).cur, text)]
    case User(_, _, _) => EndOf(c) + [MessageEvent(UserMessage(c, ev))]
    case Boundary(p) => EndOf(c) + [p]
    case Plain(p) => [p]
  }

  // ---------------------------------------------------------- interleavings

  /** Where a run's goroutine is: between events, past the staleness check with
      an event in hand, emitting, or settling with its mid-way unlock. */
  datatype Place = Handling(ev: StreamEvent) | Emitting(rest: seq<Payload>) | Ending(rest: seq<Payload>)

  const READING := Emitting([])

  /** `starting` is a `Send` that has decided to start a run and has not done
      so; `runs` are the unsettled runs by generation; `trace` is everything
      emitted while the chat was open, in order. */
  datatype World = World(core: Core, starting: bool, runs: map<nat, Place>, trace: seq<Payload>)

  function NewWorld(sess: string): World { World(NewCore(sess), false, map[], []) }

  datatype Step =
    | Decide(preferred: string)
    | Begin
    | Yield(gen: nat, ev: StreamEvent)
    | Handle(gen: nat)
    | Emit(gen: nat)
    | Background(p: Payload)
    | SettleStart(gen: nat)
    | SettleFinish(gen: nat)
    | Abort
    | CloseChat

  predicate At(w: World, gen: nat, place: Place) { gen in w.runs && w.runs[gen] == place }

  function RestOf(w: World, gen: nat): seq<Payload> {
    if gen !in w.runs || w.runs[gen].Handling? then [] else w.runs[gen].rest
  }

  /** Only one `Send` is ever between its two lock sections. */
  predicate Can(w: World, s: Step) {
    match s
    case Decide(_) => !w.starting
    case Begin => w.starting
    case Yield(gen, ev) => At(w, gen, READING) && WellFormed(ev)
    case Handle(gen) => gen in w.runs && w.runs[gen].Handling?
    case Emit(gen) => RestOf(w, gen) != []
    case Background(p) => Neutral(p)
    case SettleStart(gen) => At(w, gen, READING)
    case SettleFinish(gen) => At(w, gen, Ending([]))
    case Abort => true
    case CloseChat => true
  }

  function Emitted(w: World, p: Payload): World {
    if w.core.closed then w else w.(trace := w.trace + [p])
  }

  function Popped(place: Place): Place
    requires !place.Handling? && place.rest != []
  {
    place.(rest := place.rest[1..])
  }

  function Next(w: World, s: Step): World
    requires Can(w, s)
  {
    match s
    case Decide(preferred) => w.(starting := !w.core.closed && Starts(w.core, preferred))
    case Begin =>
      World(Started(w.core), false, w.runs[w.core.generation + 1 := READING], w.trace)
    case Yield(gen, ev) =>
      if w.core.generation != gen || w.core.closed then w else w.(runs := w.runs[gen := Handling(ev)])
    case Handle(gen) =>
      var ev := w.runs[gen].ev;
      w.(core := Handled(w.core, ev), runs := w.runs[gen := Emitting(Output(w.core, ev))])
    case Emit(gen) =>
      Emitted(w, RestOf(w, gen)[0]).(runs := w.runs[gen := Popped(w.runs[gen])])
    case Background(p) => Emitted(w, p)
    case SettleStart(gen) =>
      if w.core.generation != gen then w.(runs := w.runs - {gen})
      else if w.core.cur != "" then
        w.(core := w.core.(cur := ""), runs := w.runs[gen := Ending([AssistantEnd(w.core.cur)])])
      else w.(core := Settled(w.core), runs := w.runs - {gen})
    case SettleFinish(gen) =>
      w.(core := w.core.(state := Idle, runId := 0), runs := w.runs - {gen})
    case Abort => w.(core := Aborted(w.core))
    case CloseChat => w.(core := ClosedCore(w.core))
  }

  ghost predicate Legal(sess: string, run: seq<Step>)
    decreases |run|, 0
  {
    run == [] || (Legal(sess, run[..|run| - 1]) && Can(After(sess, run[..|run| - 1]), run[|run| - 1]))
  }

  ghost function After(sess: string, run: seq<Step>): World
    requires Legal(sess, run)
    decreases |run|, 1
  {
    if run == [] then NewWorld(sess) else Next(After(sess, run[..|run| - 1]), run[|run| - 1])
  }

  /** A message to a busy chat carries one of the three named modes. */
  predicate PoliteStep(w: World, s: Step) {
    s.Decide? ==> Named(s.preferred) || w.core.state == Idle || w.core.closed
  }

  ghost predicate Polite(sess: string, run: seq<Step>)
    requires Legal(sess, run)
  {
    run == [] || (Polite(sess, run[..|run| - 1]) && PoliteStep(After(sess, run[..|run| - 1]), run[|run| - 1]))
  }

  // ------------------------------------------------------------ one run only

  /** While the chat is open every unsettled run is of the current generation,
      the chat is idle exactly when there is none, and a pending start has an
      idle chat to itself. */
  ghost predicate OneRun(w: World) {
    !w.core.closed ==>
      && (forall gen :: gen in w.runs ==> gen == w.core.generation)
      && (w.core.state == Idle <==> w.runs == map[])
      && (w.starting ==> w.core.state == Idle)
  }

  lemma NextKeepsOneRun(w: World, s: Step)
    requires OneRun(w) && Can(w, s) && PoliteStep(w, s)
    ensures OneRun(Next(w, s))
  {
    hide Handled, Output, Named, AssistantId, Decimal;
    if s.Handle? { HandledKeeps(w.core, w.runs[s.gen].ev); }
    if w.core.closed { return; }
    var z := Next(w, s);
    match s {
      case Decide(preferred) =>
        if w.core.state != Idle { DecideNamed(w.core, preferred); }
      case Begin =>
        assert w.core.generation + 1 in z.runs;
      case Yield(gen, ev) =>
        assert gen in z.runs;
      case Handle(gen) =>
        assert gen in z.runs;
      case Emit(gen) =>
        assert gen in z.runs;
      case SettleStart(gen) =>
        assert gen in w.runs;
        if w.core.cur != "" { assert gen in z.runs; } else { OnlyKey(w.runs, gen); }
      case SettleFinish(gen) =>
        OnlyKey(w.runs, gen);
      case _ =>
    }
  }

  lemma DecideNamed(c: Core, preferred: string)
    requires Named(preferred) && c.state != Idle
    ensures !Starts(c, preferred)
  {
  }

  lemma HandledKeeps(c: Core, ev: StreamEvent)
    ensures var d := Handled(c, ev);
            d.state == c.state && d.generation == c.generation && d.closed == c.closed && d.sess == c.sess
            && d.runId == c.runId
  {
  }

  lemma OnlyKey(runs: map<nat, Place>, gen: nat)
    requires forall g :: g in runs ==> g == gen
    ensures runs - {gen} == map[]
  {
  }

  /** In every interleaving of sends, events, settling, aborts and closes, as
      long as busy chats are sent only named modes. */
  lemma {:induction false} ReachableOneRun(sess: string, run: seq<Step>)
    requires Legal(sess, run) && Polite(sess, run)
    ensures OneRun(After(sess, run))
  {
    if run != [] {
      hide OneRun, Next, Can, PoliteStep;
      ReachableOneRun(sess, run[..|run| - 1]);
      NextKeepsOneRun(After(sess, run[..|run| - 1]), run[|run| - 1]);
    } else {
      hide Next, Can, PoliteStep;
    }
  }

  /** An open chat is idle exactly when no run of the current generation is
      unsettled, and never has two unsettled runs. */
  lemma IdleMeansSettled(sess: string, run: seq<Step>)
    requires Legal(sess, run) && Polite(sess, run) && !After(sess, run).core.closed
    ensures var w := After(sess, run);
            && (w.core.state == Idle <==> w.core.generation !in w.runs)
            && |w.runs| <= 1
  {
    ReachableOneRun(sess, run);
    var w := After(sess, run);
    hide Legal, After, Polite;
    assert w.runs.Keys <= {w.core.generation};
    KeysCount(w.runs, w.core.generation);
  }

  lemma KeysCount(runs: map<nat, Place>, gen: nat)
    requires runs.Keys <= {gen}
    ensures |runs| <= 1 && (runs == map[] <==> gen !in runs)
  {
    assert runs.Keys == {} || runs.Keys == {gen};
    assert |runs| == |runs.Keys|;
    if gen !in runs { assert runs.Keys == {}; assert runs == map[]; }
  }

  /** Both halves of settling write only while the run is still the newest one,
      so the unlock in between lets nothing newer be overwritten. */
  lemma SettleNeverOverwrites(sess: string, run: seq<Step>, gen: nat)
    requires Legal(sess, run) && Polite(sess, run) && !After(sess, run).core.closed
    requires Can(After(sess, run), SettleFinish(gen)) || Can(After(sess, run), SettleStart(gen))
    ensures After(sess, run).core.generation == gen && After(sess, run).core.state != Idle
    ensures !After(sess, run).starting
  {
    ReachableOneRun(sess, run);
    assert gen in After(sess, run).runs;
  }

  /** The exact limit: from a reachable busy chat, one more `Send` can bring a
      second run to life if and only if its mode is not one of the three. */
  lemma SecondRunIff(sess: string, run: seq<Step>, preferred: string)
    requires Legal(sess, run) && Polite(sess, run)
    requires var w := After(sess, run); !w.core.closed && !w.starting && w.core.state != Idle
    ensures Legal(sess, run + [Decide(preferred)])
    ensures Legal(sess, run + [Decide(preferred)] + [Begin]) <==> !Named(preferred)
    ensures !Named(preferred) ==>
              var w := After(sess, run + [Decide(preferred)] + [Begin]);
              |w.runs| == 2 && w.core.generation in w.runs && w.core.generation - 1 in w.runs
  {
    hide OneRun, Next, Can, Legal, After, Polite, Named;
    var w := After(sess, run);
    ReachableOneRun(sess, run);
    DecideBusy(w, preferred);
    Extend(sess, run, Decide(preferred));
    Extend(sess, run + [Decide(preferred)], Begin);
    if !Named(preferred) { TwoRuns(w, preferred); }
  }

  lemma Extend(sess: string, run: seq<Step>, s: Step)
    requires Legal(sess, run)
    ensures Legal(sess, run + [s]) == Can(After(sess, run), s)
    ensures Legal(sess, run + [s]) ==> After(sess, run + [s]) == Next(After(sess, run), s)
  {
    assert (run + [s])[..|run + [s]| - 1] == run;
  }

  lemma DecideBusy(w: World, preferred: string)
    requires !w.core.closed && !w.starting && w.core.state != Idle
    ensures Can(w, Decide(preferred))
    ensures Can(Next(w, Decide(preferred)), Begin) <==> !Named(preferred)
  {
  }

  lemma TwoRuns(w: World, preferred: string)
    requires OneRun(w) && !w.core.closed && !w.starting && w.core.state != Idle
    requires Can(w, Decide(preferred)) && Can(Next(w, Decide(preferred)), Begin)
    ensures var z := Next(Next(w, Decide(preferred)), Begin);
            |z.runs| == 2 && z.core.generation in z.runs && z.core.generation - 1 in z.runs
  {
    var g := w.core.generation;
    KeysCount(w.runs, g);
    assert w.runs.Keys == {g};
    var z := w.runs[g + 1 := READING];
    assert z.Keys == {g, g + 1};
    assert |z| == |z.Keys|;
  }

  /** It does happen: one message, then another with a mode of its own. */
  lemma SecondRunHappens(sess: string)
    ensures exists run :: Legal(sess, run) && |After(sess, run).runs| == 2 && !After(sess, run).core.closed
  {
    var first: seq<Step> := [];
    NothingYet(sess);
    hide Legal, After, Polite, OneRun;
    Extend(sess, first, Decide(NORMAL));
    var decided := first + [Decide(NORMAL)];
    PoliteGrows(sess, first, Decide(NORMAL));
    Extend(sess, decided, Begin);
    PoliteGrows(sess, decided, Begin);
    var busy := decided + [Begin];
    SecondRunIff(sess, busy, "later");
    Extend(sess, busy, Decide("later"));
    Extend(sess, busy + [Decide("later")], Begin);
    assert |After(sess, busy + [Decide("later")] + [Begin]).runs| == 2;
  }

  lemma NothingYet(sess: string)
    ensures Legal(sess, []) && After(sess, []) == NewWorld(sess) && Polite(sess, [])
  {
  }

  lemma PoliteGrows(sess: string, run: seq<Step>, s: Step)
    requires Legal(sess, run) && Polite(sess, run) && Can(After(sess, run), s) && PoliteStep(After(sess, run), s)
    ensures Legal(sess, run + [s]) && Polite(sess, run + [s])
  {
    hide Next, Can, PoliteStep;
    assert (run + [s])[..|run + [s]| - 1] == run;
  }

  // ------------------------------------------------- starting while closing

  /** A closed chat with a run of its newest generation. */
  ghost predicate RunsThoughClosed(w: World) {
    w.core.closed && w.core.state == Busy && w.core.generation in w.runs
  }

  /** Closing does not stop a `Send` that has decided to start a run: the run
      starts on the closed chat if and only if such a `Send` was between its two
      lock sections. */
  lemma StartAfterCloseIff(sess: string, run: seq<Step>)
    requires Legal(sess, run) && !After(sess, run).core.closed
    ensures Legal(sess, run + [CloseChat])
    ensures Legal(sess, run + [CloseChat] + [Begin]) <==> After(sess, run).starting
    ensures After(sess, run).starting ==> RunsThoughClosed(After(sess, run + [CloseChat] + [Begin]))
  {
    hide Legal, After;
    Extend(sess, run, CloseChat);
    Extend(sess, run + [CloseChat], Begin);
  }

  /** Nothing else starts one: if no `Send` was in between when the chat was
      closed, none begins a run ever after. */
  lemma {:induction false} NoStartOnceClosed(sess: string, run: seq<Step>, more: seq<Step>)
    requires Legal(sess, run) && Legal(sess, run + more)
    requires After(sess, run).core.closed && !After(sess, run).starting
    ensures After(sess, run + more).core.closed && !After(sess, run + more).starting
    ensures forall i :: 0 <= i < |more| ==> !more[i].Begin?
    decreases |more|
  {
    if more == [] {
      assert run + more == run;
    } else {
      hide Next, Can;
      var init, s := more[..|more| - 1], more[|more| - 1];
      assert (run + more)[..|run + more| - 1] == run + init;
      NoStartOnceClosed(sess, run, init);
      ClosedStep(After(sess, run + init), s);
      assert forall i :: 0 <= i < |init| ==> more[i] == init[i];
    }
  }

  lemma ClosedStep(w: World, s: Step)
    requires w.core.closed && !w.starting && Can(w, s)
    ensures !s.Begin? && Next(w, s).core.closed && !Next(w, s).starting
  {
    hide Output, WellFormed;
  }

  /** It does happen: the chat is closed while its first message is sent. */
  lemma StartAfterCloseHappens(sess: string)
    ensures var run := [Decide(NORMAL), CloseChat, Begin];
            Legal(sess, run) && RunsThoughClosed(After(sess, run))
  {
    NothingYet(sess);
    hide Legal, After, RunsThoughClosed;
    Extend(sess, [], Decide(NORMAL));
    assert [] + [Decide(NORMAL)] == [Decide(NORMAL)];
    StartAfterCloseIff(sess, [Decide(NORMAL)]);
    assert [Decide(NORMAL)] + [CloseChat] + [Begin] == [Decide(NORMAL), CloseChat, Begin];
  }

  /** Closing takes the chat from every run that is under way: whatever follows,
      such a run settles without a trace. */
  lemma CloseStopsSettling(sess: string, run: seq<Step>, more: seq<Step>, gen: nat)
    requires Legal(sess, run) && !After(sess, run).core.closed && gen in After(sess, run).runs
    requires Legal(sess, run + [CloseChat] + more) && Can(After(sess, run + [CloseChat] + more), SettleStart(gen))
    ensures var w := After(sess, run + [CloseChat] + more);
            Next(w, SettleStart(gen)) == w.(runs := w.runs - {gen})
  {
    hide Legal, After;
    RunsAreOld(sess, run, gen);
    Extend(sess, run, CloseChat);
    GenerationGrows(sess, run + [CloseChat], more);
  }

  /** What one step does to generation, flag and status. */
  lemma StatusStep(w: World, s: Step)
    requires Can(w, s)
    ensures var c, d := w.core, Next(w, s).core;
            && d.generation == c.generation + (if s.Begin? || (s.CloseChat? && !c.closed) then 1 else 0)
            && d.closed == (c.closed || s.CloseChat?)
            && (forall gen :: gen in Next(w, s).runs ==> gen in w.runs || gen == d.generation)
            && (s.Begin? ==> d.state == Busy && d.runId == d.generation)
            && (s.Abort? ==> d.state == (if c.state == Busy then Stopping else c.state) && d.runId == c.runId)
            && (!s.Begin? && !s.Abort? ==>
                  (d.state == c.state && d.runId == c.runId) || (d.state == Idle && d.runId == 0))
  {
    hide Output, WellFormed, Ensured, UserId;
    if s.Handle? { HandledKeeps(w.core, w.runs[s.gen].ev); }
  }

  /** A closed chat emits nothing and takes no further event. */
  lemma {:induction false} ClosedIsQuiet(sess: string, run: seq<Step>, more: seq<Step>)
    requires Legal(sess, run) && Legal(sess, run + more) && After(sess, run).core.closed
    ensures var w, z := After(sess, run), After(sess, run + more);
            && z.core.closed && z.trace == w.trace
            && forall gen :: gen in z.runs && z.runs[gen].Handling? ==> At(w, gen, z.runs[gen])
    decreases |more|
  {
    if more == [] {
      assert run + more == run;
    } else {
      hide Next, Can;
      var init := more[..|more| - 1];
      assert (run + more)[..|run + more| - 1] == run + init;
      ClosedIsQuiet(sess, run, init);
      QuietStep(After(sess, run + init), more[|more| - 1]);
    }
  }

  lemma QuietStep(w: World, s: Step)
    requires Can(w, s) && w.core.closed
    ensures var z := Next(w, s);
            && z.core.closed && z.trace == w.trace
            && forall gen :: gen in z.runs && z.runs[gen].Handling? ==> At(w, gen, z.runs[gen])
  {
    hide Output, WellFormed, Ensured, UserId;
    StatusStep(w, s);
  }

  lemma {:induction false} RunsAreOld(sess: string, run: seq<Step>, gen: nat)
    requires Legal(sess, run) && gen in After(sess, run).runs
    ensures gen <= After(sess, run).core.generation
  {
    if run != [] {
      hide Next, Can;
      var w := After(sess, run[..|run| - 1]);
      StatusStep(w, run[|run| - 1]);
      if gen in w.runs { RunsAreOld(sess, run[..|run| - 1], gen); }
    }
  }

  lemma {:induction false} GenerationGrows(sess: string, run: seq<Step>, more: seq<Step>)
    requires Legal(sess, run) && Legal(sess, run + more)
    ensures After(sess, run + more).core.generation >= After(sess, run).core.generation
    decreases |more|
  {
    if more == [] {
      assert run + more == run;
    } else {
      hide Next, Can;
      var init := more[..|more| - 1];
      assert (run + more)[..|run + more| - 1] == run + init;
      GenerationGrows(sess, run, init);
      StatusStep(After(sess, run + init), more[|more| - 1]);
    }
  }

  // -------------------------------------------------------------- the status

  /** An abort since the last start of a run. */
  predicate AbortedSince(run: seq<Step>) {
    run != [] && (run[|run| - 1].Abort? || (!run[|run| - 1].Begin? && AbortedSince(run[..|run| - 1])))
  }

  function Begins(run: seq<Step>): nat {
    if run == [] then 0 else Begins(run[..|run| - 1]) + if run[|run| - 1].Begin? then 1 else 0
  }

  /** What the status tells of the steps so far: a chat that is not idle is
      stopping exactly if its run was aborted, it names the newest run, and each
      start, and the close, is a generation. */
  lemma {:induction false} StatusSays(sess: string, run: seq<Step>)
    requires Legal(sess, run)
    ensures var c := After(sess, run).core;
            && (c.state != Idle ==> (c.state == Stopping <==> AbortedSince(run)))
            && (!c.closed ==> c.runId == if c.state == Idle then 0 else c.generation)
            && c.generation == Begins(run) + (if c.closed then 1 else 0)
            && (c.closed <==> CloseChat in run)
  {
    if run != [] {
      hide Next, Can;
      var init, last := run[..|run| - 1], run[|run| - 1];
      assert run == init + [last];
      StatusSays(sess, init);
      StatusStep(After(sess, init), last);
    }
  }

  // --------------------------------------------------------------- the modes

  /** The HTTP handler never hands over a mode that starts a second run. */
  lemma HandlerIsPolite(mode: string, w: World)
    ensures AdmitMode(mode).Some? <==> Named(mode) || mode == ""
    ensures AdmitMode(mode).Some? ==> AdmitMode(mode).value == if mode == "" then NORMAL else mode
    ensures AdmitMode(mode).Some? ==> PoliteStep(w, Decide(AdmitMode(mode).value))
  {
  }
}
