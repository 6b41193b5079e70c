/** The pumps of a chat: the check of an event and its publication are two lock
    sections, and closing may come in between. */
module Pumps {

  /** What became of an event: refused by the check, past it, refused because
      the chat was closed by then, or published, `late` if the generation had
      moved on since the check. */
  datatype Fate = Stale | Passed | Refused | Published(late: bool)

  datatype Event = Event(gen: nat, fate: Fate)

  /** `inHand` is the event that each pump has checked and not yet published. */
  datatype World = World(generation: nat, closed: bool, events: seq<Event>, inHand: map<nat, nat>)

  function NewWorld(generation: nat): World { World(generation, false, [], map[]) }

  datatype Step = Check(gen: nat) | Publish(gen: nat) | CloseEnter | CloseMark

  /** A pump handles one event at a time. */
  predicate Can(w: World, s: Step) {
    match s
    case Check(gen) => gen !in w.inHand
    case Publish(gen) => gen in w.inHand && w.inHand[gen] < |w.events|
    case _ => true
  }

  predicate IsStale(w: World, gen: nat) { w.generation != gen || w.closed }

  function Next(w: World, s: Step): World
    requires Can(w, s)
  {
    match s
    case Check(gen) =>
      if IsStale(w, gen) then w.(events := w.events + [Event(gen, Stale)])
      else w.(events := w.events + [Event(gen, Passed)], inHand := w.inHand[gen := |w.events|])
    case Publish(gen) =>
      var fate := if w.closed then Refused else Published(w.generation != gen);
      w.(events := w.events[w.inHand[gen] := Event(gen, fate)], inHand := w.inHand - {gen})
    case CloseEnter => if w.closed then w else w.(generation := w.generation + 1)
    case CloseMark => w.(closed := true)
  }

  ghost predicate Legal(start: nat, run: seq<Step>)
    decreases |run|, 0
  {
    run == [] || (Legal(start, run[..|run| - 1]) && Can(After(start, run[..|run| - 1]), run[|run| - 1]))
  }

  ghost function After(start: nat, run: seq<Step>): World
    requires Legal(start, run)
    decreases |run|, 1
  {
    if run == [] then NewWorld(start) else Next(After(start, run[..|run| - 1]), run[|run| - 1])
  }

  predicate IsLate(e: Event) { e.fate.Published? && e.fate.late }

  /** What a pump has in hand is its own event, past the check. */
  ghost predicate HandsOk(w: World) {
    forall gen :: gen in w.inHand ==>
      w.inHand[gen] < |w.events| && w.events[w.inHand[gen]] == Event(gen, Passed) && gen <= w.generation
  }

  /** A late event belongs to a past generation whose pump has nothing in hand. */
  ghost predicate LateOk(w: World) {
    forall i :: 0 <= i < |w.events| && IsLate(w.events[i]) ==>
      w.events[i].gen < w.generation && w.events[i].gen !in w.inHand
  }

  ghost predicate OneLate(w: World) {
    forall i, j :: 0 <= i < j < |w.events| && IsLate(w.events[i]) && IsLate(w.events[j]) ==>
      w.events[i].gen != w.events[j].gen
  }

  ghost predicate Inv(w: World) { HandsOk(w) && LateOk(w) && OneLate(w) }

  lemma CheckKeeps(w: World, gen: nat)
    requires Inv(w) && Can(w, Check(gen))
    ensures Inv(Next(w, Check(gen)))
  {
    var z := Next(w, Check(gen));
    assert forall i :: 0 <= i < |w.events| ==> z.events[i] == w.events[i];
    assert !IsLate(z.events[|w.events|]);
  }

  lemma PublishKeeps(w: World, gen: nat)
    requires Inv(w) && Can(w, Publish(gen))
    ensures Inv(Next(w, Publish(gen)))
  {
    var z, at := Next(w, Publish(gen)), w.inHand[gen];
    assert forall i :: 0 <= i < |w.events| && i != at ==> z.events[i] == w.events[i];
    assert forall g :: g in w.inHand && g != gen ==> w.inHand[g] != at;
    assert forall i :: 0 <= i < |w.events| && IsLate(w.events[i]) ==> w.events[i].gen != gen;
    hide IsLate;
  }

  lemma NextKeeps(w: World, s: Step)
    requires Inv(w) && Can(w, s)
    ensures Inv(Next(w, s))
  {
    match s
    case Check(gen) => CheckKeeps(w, gen);
    case Publish(gen) => PublishKeeps(w, gen);
    case _ => hide IsLate;
  }

  lemma {:induction false} Reachable(start: nat, run: seq<Step>)
    requires Legal(start, run)
    ensures Inv(After(start, run))
  {
    if run != [] {
      hide Inv, Next, Can;
      Reachable(start, run[..|run| - 1]);
      NextKeeps(After(start, run[..|run| - 1]), run[|run| - 1]);
    }
  }

  /** An event goes out after its generation moved exactly when it had passed
      the check before and the chat is not closed yet. */
  lemma LateIff(start: nat, run: seq<Step>, gen: nat)
    requires Legal(start, run) && After(start, run).generation != gen
    requires Can(After(start, run), Publish(gen)) || Can(After(start, run), Check(gen))
    ensures var w := After(start, run);
            && (Can(w, Check(gen)) ==> Next(w, Check(gen)).events == w.events + [Event(gen, Stale)])
            && (Can(w, Publish(gen)) ==>
                  var i := w.inHand[gen];
                  && w.events[i] == Event(gen, Passed)
                  && (IsLate(Next(w, Publish(gen)).events[i]) <==> !w.closed))
  {
    Reachable(start, run);
  }

  /** An event is refused at the check exactly if its generation has moved or the
      chat is closed, and then at its publication exactly if the chat is closed;
      nothing else is dropped. */
  lemma FateIff(start: nat, run: seq<Step>, gen: nat)
    requires Legal(start, run)
    ensures var w := After(start, run);
            && (Can(w, Check(gen)) ==>
                  var z, passes := Next(w, Check(gen)), w.generation == gen && !w.closed;
                  && z.events == w.events + [Event(gen, if passes then Passed else Stale)]
                  && (Can(z, Publish(gen)) <==> passes))
            && (Can(w, Publish(gen)) ==>
                  var z, i := Next(w, Publish(gen)), w.inHand[gen];
                  && w.events[i] == Event(gen, Passed) && Can(z, Check(gen))
                  && var fate := if w.closed then Refused else Published(w.generation != gen);
                     z.events == w.events[i := Event(gen, fate)])
  {
    Reachable(start, run);
  }

  function Enters(run: seq<Step>): nat {
    if run == [] then 0
    else
      var init, last := run[..|run| - 1], run[|run| - 1];
      Enters(init) + if last.CloseEnter? && CloseMark !in init then 1 else 0
  }

  /** Each close of an open chat moves the generation once. */
  lemma {:induction false} GenerationCounts(start: nat, run: seq<Step>)
    requires Legal(start, run)
    ensures After(start, run).generation == start + Enters(run)
    ensures After(start, run).closed <==> CloseMark in run
  {
    if run != [] {
      var init, last := run[..|run| - 1], run[|run| - 1];
      assert run == init + [last];
      GenerationCounts(start, init);
    }
  }

  /** At most one event of a generation ever goes out late. */
  lemma OneLateEvent(start: nat, run: seq<Step>, i: nat, j: nat)
    requires Legal(start, run) && i < |After(start, run).events| && j < |After(start, run).events|
    requires IsLate(After(start, run).events[i]) && IsLate(After(start, run).events[j])
    requires After(start, run).events[i].gen == After(start, run).events[j].gen
    ensures i == j
  {
    Reachable(start, run);
  }

  /** It does happen: the check, the first half of close, the publication. */
  lemma LateHappens(gen: nat)
    ensures var run := [Check(gen), CloseEnter, Publish(gen)];
            Legal(gen, run) && After(gen, run).events == [Event(gen, Published(true))]
  {
    var r1, r2, r3 := [Check(gen)], [Check(gen), CloseEnter], [Check(gen), CloseEnter, Publish(gen)];
    assert r1[..0] == [] && r2[..1] == r1 && r3[..2] == r2;
    assert Legal(gen, []) && After(gen, []) == NewWorld(gen);
    assert Legal(gen, r1) && After(gen, r1) == World(gen, false, [Event(gen, Passed)], map[gen := 0]);
    assert Legal(gen, r2) && After(gen, r2) == World(gen + 1, false, [Event(gen, Passed)], map[gen := 0]);
  }
}
