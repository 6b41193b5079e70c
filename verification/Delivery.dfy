/** What reaches a browser: which frames its handler writes, and that nothing is
    left behind once writing, delivering and flushing have done their work. */
module Delivery {
  import opened Protocol
  import opened Timeline
  import opened Reducer
  import opened EventLog
  import opened EventHub
  import opened Reconnect
  import opened EventHandlers
  import Fanout
  import Simulation

  lemma Extend(start: Chat, run: seq<Act>, a: Act)
    requires Legal(start, run)
    ensures Legal(start, run + [a]) == Enabled(After(start, run), a)
    ensures Legal(start, run + [a]) ==> After(start, run + [a]) == Next(After(start, run), a)
  {
    hide Enabled, Next;
    assert (run + [a])[..|run + [a]| - 1] == run;
  }

  // ------------------------------------------------------------- the history

  predicate Marked(run: seq<Act>) { exists i :: 0 <= i < |run| && run[i].MarkClose? }

  /** What was published up to the close, and every closing event. */
  function EventsOf(run: seq<Act>): seq<Payload> {
    if run == [] then []
    else
      var init := run[..|run| - 1];
      EventsOf(init) + match run[|run| - 1]
                       case Publish(p) => if Marked(init) then [] else [p]
                       case MarkClose(_, reason) => [ChatClosed(reason)]
                       case _ => []
  }

  lemma HistoryStep(y: Sys, a: Act)
    requires Enabled(y, a)
    ensures var z := Next(y, a);
            && z.net.hub.closed == (y.net.hub.closed || a.MarkClose?)
            && z.inputs == y.inputs + match a
                                      case Publish(p) => if y.net.hub.closed then [] else [p]
                                      case MarkClose(_, reason) => [ChatClosed(reason)]
                                      case _ => []
  {
    hide Apply, Consume, FirstStage;
    assert y.inputs + [] == y.inputs;
  }

  /** The events of a chat are those published on it while it was open and its
      closing events, in order. */
  lemma {:induction false} InputsAreEvents(start: Chat, run: seq<Act>)
    requires Legal(start, run)
    ensures After(start, run).inputs == EventsOf(run)
    ensures After(start, run).net.hub.closed <==> Marked(run)
  {
    if run != [] {
      hide Enabled, Next;
      var init, a := run[..|run| - 1], run[|run| - 1];
      InputsAreEvents(start, init);
      HistoryStep(After(start, init), a);
      assert forall i :: 0 <= i < |init| ==> run[i] == init[i];
      if a.MarkClose? { assert run[|init|].MarkClose?; }
    }
  }

  // -------------------------------------------------------------- one write

  /** One frame more on the wire, one entry fewer in the channel. */
  function Streamed(y: Sys, f: Frame): Sys
    requires y.conn.Some? && y.conn.value.sub in y.net.hub.chans
  {
    var conn, hub := y.conn.value, y.net.hub;
    var c := hub.chans[conn.sub];
    y.(conn := Some(conn.(wire := conn.wire + [f])),
       net := y.net.(hub := hub.(chans := hub.chans[conn.sub := c.(taken := c.taken + 1)])))
  }

  predicate HasEntry(y: Sys) {
    y.conn.Some? && y.conn.value.stage.Stream? && y.conn.value.sub in y.net.hub.chans
    && 0 <= y.net.hub.chans[y.conn.value.sub].taken < |y.net.hub.chans[y.conn.value.sub].sent|
  }

  lemma StreamOne(y: Sys)
    requires HasEntry(y)
    ensures var c := y.net.hub.chans[y.conn.value.sub];
            WriteNext(y, y.conn.value) == Streamed(y, ToFrame(c.sent[c.taken]))
  {
  }

  lemma EntryIsNext(y: Sys)
    requires ServerOk(y) && HasEntry(y)
    ensures var c := y.net.hub.chans[y.conn.value.sub];
            c.start + c.taken < |y.inputs|
            && ToFrame(c.sent[c.taken]) == FrameAt(y.start, y.inputs, c.start + c.taken + 1)
  {
    hide LogOk, Fanout.LogOk, Fanout.CloserOk, Fanout.Apart, Fanout.Level, Simulation.Broadcast, Run;
    var c := y.net.hub.chans[y.conn.value.sub];
    var n := c.start + c.taken + 1;
    LogLength(y.start, y.inputs, y.net.history);
    assert Fanout.ChannelOk(c, y.net.history, LIMITS.room);
    EntryIsGenuine(y.start, y.inputs, y.net.history, n);
    assert c.sent[c.taken] == Entry(n, y.net.history[n - 1]);
  }

  lemma EntryFacts(y: Sys)
    requires Inv(y) && Enabled(y, Write) && y.conn.value.stage.Stream?
    ensures HasEntry(y) <==> Depth(y.net.hub.chans[y.conn.value.sub]) > 0
    ensures ServerOk(y)
  {
    hide PipeOk, ClientOk, LogOk, Fanout.LogOk, Fanout.CloserOk, Fanout.Apart, Fanout.Level;
    assert Fanout.ChannelOk(y.net.hub.chans[y.conn.value.sub], y.net.history, LIMITS.room);
  }

  /** While its channel holds an entry, the handler's next write is the event of
      the chat that comes next for its subscription. */
  lemma StreamWrites(start: Chat, run: seq<Act>)
    requires Legal(start, run) && Enabled(After(start, run), Write)
    requires var y := After(start, run);
             y.conn.value.stage.Stream? && Depth(y.net.hub.chans[y.conn.value.sub]) > 0
    ensures var y := After(start, run);
            var c := y.net.hub.chans[y.conn.value.sub];
            && Legal(start, run + [Write]) && c.start + c.taken < |y.inputs|
            && After(start, run + [Write]) == Streamed(y, FrameAt(start, y.inputs, c.start + c.taken + 1))
  {
    hide Legal, After, Inv, ServerOk, HasEntry, Streamed, FrameAt, WriteNext;
    ReachableInv(start, run);
    Extend(start, run, Write);
    EntryFacts(After(start, run));
    EntryIsNext(After(start, run));
    StreamOne(After(start, run));
  }

  // ---------------------------------------------------- the handler on its own

  /** Only the handler moves, until its channel is empty. */
  function StreamAll(y: Sys): Sys
    decreases if HasEntry(y) then Depth(y.net.hub.chans[y.conn.value.sub]) else 0
  {
    if HasEntry(y) then StreamAll(WriteNext(y, y.conn.value)) else y
  }

  /** The channel emptied, and its entries on the wire. */
  function Drained(y: Sys): Sys
    requires y.conn.Some? && y.conn.value.sub in y.net.hub.chans
    requires 0 <= y.net.hub.chans[y.conn.value.sub].taken <= |y.net.hub.chans[y.conn.value.sub].sent|
  {
    var conn, hub := y.conn.value, y.net.hub;
    var c := hub.chans[conn.sub];
    y.(conn := Some(conn.(wire := conn.wire + ToFrames(c.sent[c.taken..]))),
       net := y.net.(hub := hub.(chans := hub.chans[conn.sub := c.(taken := |c.sent|)])))
  }

  lemma DrainOne(y: Sys)
    requires HasEntry(y)
    ensures var z := WriteNext(y, y.conn.value);
            && z.conn.Some? && z.conn.value.stage.Stream? && z.conn.value.sub in z.net.hub.chans
            && 0 <= z.net.hub.chans[z.conn.value.sub].taken <= |z.net.hub.chans[z.conn.value.sub].sent|
            && Drained(z) == Drained(y)
  {
    StreamOne(y);
    var wire, c := y.conn.value.wire, y.net.hub.chans[y.conn.value.sub];
    assert ToFrames(c.sent[c.taken..]) == [ToFrame(c.sent[c.taken])] + ToFrames(c.sent[c.taken + 1..]);
    assert wire + [ToFrame(c.sent[c.taken])] + ToFrames(c.sent[c.taken + 1..]) == wire + ToFrames(c.sent[c.taken..]);
    hide WriteNext, ToFrames;
  }

  lemma DrainNone(y: Sys)
    requires y.conn.Some? && y.conn.value.sub in y.net.hub.chans
    requires 0 <= y.net.hub.chans[y.conn.value.sub].taken == |y.net.hub.chans[y.conn.value.sub].sent|
    ensures Drained(y) == y
  {
    var wire, c := y.conn.value.wire, y.net.hub.chans[y.conn.value.sub];
    assert c.sent[c.taken..] == [] && wire + [] == wire;
    assert y.net.hub.chans[y.conn.value.sub := c] == y.net.hub.chans;
  }

  /** The stream steps, left alone, write what the channel holds, in order, and
      take it: what draining the channel in one loop returns. */
  lemma {:induction false} StreamAllDrains(y: Sys)
    requires y.conn.Some? && y.conn.value.stage.Stream? && y.conn.value.sub in y.net.hub.chans
    requires 0 <= y.net.hub.chans[y.conn.value.sub].taken <= |y.net.hub.chans[y.conn.value.sub].sent|
    ensures StreamAll(y) == Drained(y)
    decreases Depth(y.net.hub.chans[y.conn.value.sub])
  {
    hide Drained, WriteNext;
    if HasEntry(y) {
      DrainOne(y);
      StreamOne(y);
      StreamAllDrains(WriteNext(y, y.conn.value));
    } else {
      DrainNone(y);
    }
  }

  // ----------------------------------------------------------- catching up

  predicate Moves(a: Act) { a.Write? || a.Deliver? || a.Flush? }

  ghost predicate AllMoves(acts: seq<Act>) { forall i :: 0 <= i < |acts| ==> Moves(acts[i]) }

  /** Writing, delivering and flushing change nothing more. */
  ghost predicate Quiet(y: Sys) { forall a :: Moves(a) && Enabled(y, a) ==> Next(y, a) == y }

  /** The subscription of the connection is on the chat's list. */
  predicate Stands(y: Sys) { y.conn.Some? && y.conn.value.sub in y.net.hub.subs }

  lemma MovesKeepStanding(y: Sys, a: Act)
    requires Stands(y) && Moves(a) && Enabled(y, a)
    ensures Stands(Next(y, a)) && Next(y, a).inputs == y.inputs && Next(y, a).conn.value.sub == y.conn.value.sub
  {
    hide Consume, FirstStage;
  }

  lemma {:induction false} SchedulesKeepStanding(start: Chat, run: seq<Act>, more: seq<Act>)
    requires Legal(start, run) && Legal(start, run + more) && AllMoves(more) && Stands(After(start, run))
    ensures Stands(After(start, run + more)) && After(start, run + more).inputs == After(start, run).inputs
    decreases |more|
  {
    if more == [] {
      assert run + more == run;
    } else {
      hide Enabled, Next, Stands, Moves;
      var init := more[..|more| - 1];
      assert (run + more)[..|run + more| - 1] == run + init;
      SchedulesKeepStanding(start, run, init);
      MovesKeepStanding(After(start, run + init), more[|more| - 1]);
    }
  }

  /** A write, a delivery or a flush with something to do does something. */
  lemma MovesMove(y: Sys)
    requires Wired(y.net.hub)
    ensures Stands(y) && (HasEntry(y) || !y.conn.value.stage.Stream?) ==> Enabled(y, Write) && Next(y, Write) != y
    ensures y.conn.Some? && y.conn.value.wire != [] ==> Enabled(y, Deliver) && Next(y, Deliver) != y
    ensures y.client.inbox != [] ==> Enabled(y, Flush) && Next(y, Flush) != y
  {
    hide Reduce;
    if HasEntry(y) { StreamOne(y); }
    if Stands(y) && y.conn.value.stage.SendReplay? {
      var rest := y.conn.value.stage.rest;
      assert rest != [] ==> |rest[1..]| < |rest|;
    }
    assert y.conn.Some? && y.conn.value.wire != [] ==> |y.conn.value.wire[1..]| < |y.conn.value.wire|;
    assert y.client.inbox != [] ==> |y.client.inbox[1..]| < |y.client.inbox|;
  }

  lemma QuietMeansDone(y: Sys)
    requires Quiet(y) && Wired(y.net.hub) && Stands(y)
    ensures y.conn.value.stage.Stream? && !HasEntry(y) && y.conn.value.wire == [] && y.client.inbox == []
  {
    hide Next, Enabled;
    MovesMove(y);
    assert Moves(Write) && Moves(Deliver) && Moves(Flush);
  }

  /** However writes, deliveries and flushes are scheduled: once none of them has
      anything left to do, a browser whose subscription stands is synced and has
      seen every event of the chat. */
  lemma ScheduleCatchesUp(start: Chat, run: seq<Act>, more: seq<Act>)
    requires Legal(start, run) && Stands(After(start, run))
    requires Legal(start, run + more) && AllMoves(more) && Quiet(After(start, run + more))
    ensures var z := After(start, run + more);
            && z.inputs == After(start, run).inputs
            && z.client.synced && z.client.state.seqNo == |z.inputs|
  {
    hide Legal, After, AllMoves, PipeOk, ClientOk, Quiet, HasEntry;
    SchedulesKeepStanding(start, run, more);
    ReachableInv(start, run + more);
    var z := After(start, run + more);
    StandingIsWired(z);
    QuietMeansDone(z);
    EntryFacts(z);
    CaughtUp(start, run + more);
  }

  lemma StandingIsWired(y: Sys)
    requires Inv(y) && Stands(y)
    ensures Wired(y.net.hub) && Enabled(y, Write)
    ensures Depth(y.net.hub.chans[y.conn.value.sub]) >= 0
  {
    hide PipeOk, ClientOk, LogOk, Fanout.LogOk, Fanout.CloserOk, Fanout.Apart, Fanout.Level;
    assert Fanout.ChannelOk(y.net.hub.chans[y.conn.value.sub], y.net.history, LIMITS.room);
  }

  /** Every move that does something brings this down. */
  function Work(y: Sys): int {
    |y.client.inbox|
    + match y.conn
      case None => 0
      case Some(conn) =>
        2 * |conn.wire| + 3 * Remaining(conn.stage)
        + if conn.sub in y.net.hub.chans then 3 * Depth(y.net.hub.chans[conn.sub]) else 0
  }

  lemma MoveWorks(y: Sys, a: Act)
    requires Inv(y) && Moves(a) && Enabled(y, a) && Next(y, a) != y
    ensures Work(Next(y, a)) < Work(y)
  {
    hide Reduce, Inv, FirstStage;
    if a.Write? && y.conn.value.stage.Stream? {
      EntryFacts(y);
      if HasEntry(y) { StreamOne(y); }
    }
  }

  /** No step of the schedule is taken in vain. */
  ghost predicate Working(start: Chat, run: seq<Act>, more: seq<Act>)
    requires Legal(start, run)
  {
    forall i :: 0 <= i < |more| && Legal(start, run + more[..i]) && Enabled(After(start, run + more[..i]), more[i]) ==>
      Next(After(start, run + more[..i]), more[i]) != After(start, run + more[..i])
  }

  lemma LastMove(start: Chat, run: seq<Act>, more: seq<Act>)
    requires Legal(start, run) && Legal(start, run + more) && AllMoves(more) && Working(start, run, more) && more != []
    ensures var init, a := more[..|more| - 1], more[|more| - 1];
            && Legal(start, run + init) && AllMoves(init) && Working(start, run, init)
            && Moves(a) && Enabled(After(start, run + init), a)
            && After(start, run + more) == Next(After(start, run + init), a) != After(start, run + init)
  {
    hide Enabled, Next, Moves;
    var init, n := more[..|more| - 1], |more| - 1;
    assert (run + more)[..|run + more| - 1] == run + init;
    assert forall i :: 0 <= i < n ==> init[..i] == more[..i] && init[i] == more[i];
  }

  lemma {:induction false} SchedulesWork(start: Chat, run: seq<Act>, more: seq<Act>)
    requires Legal(start, run) && Legal(start, run + more) && AllMoves(more) && Working(start, run, more)
    ensures |more| + Work(After(start, run + more)) <= Work(After(start, run))
    decreases |more|
  {
    hide Enabled, Next, Moves, Work, Inv, Legal, After, Working, AllMoves;
    if more == [] {
      assert run + more == run;
    } else {
      var init, n := more[..|more| - 1], |more| - 1;
      LastMove(start, run, more);
      SchedulesWork(start, run, init);
      ReachableInv(start, run + init);
      MoveWorks(After(start, run + init), more[n]);
    }
  }

  lemma WorkIsLeft(start: Chat, run: seq<Act>)
    requires Legal(start, run)
    ensures Work(After(start, run)) >= 0
  {
    hide Legal, After, PipeOk, ClientOk, LogOk, Fanout.LogOk, Fanout.CloserOk, Fanout.Apart, Fanout.Level;
    ReachableInv(start, run);
    var y := After(start, run);
    if y.conn.Some? && y.conn.value.sub in y.net.hub.chans {
      assert Fanout.ChannelOk(y.net.hub.chans[y.conn.value.sub], y.net.history, LIMITS.room);
    }
  }

  /** And no such schedule goes on for ever. */
  lemma SchedulesEnd(start: Chat, run: seq<Act>, more: seq<Act>)
    requires Legal(start, run) && Legal(start, run + more) && AllMoves(more) && Working(start, run, more)
    ensures |more| <= Work(After(start, run))
  {
    hide Legal, After, AllMoves, Working, Work;
    SchedulesWork(start, run, more);
    WorkIsLeft(start, run + more);
  }

  // ----------------------------------------------------------- reconnecting

  /** The events after the first `n`, as they are sent. */
  function Missed(start: Chat, inputs: seq<Payload>, n: nat): seq<Frame>
    requires n <= |inputs|
  {
    seq(|inputs| - n, i requires 0 <= i < |inputs| - n => FrameAt(start, inputs, n + i + 1))
  }

  /** What a new connection starts with: exactly the missed events if the log of
      an open chat still has them all, else the whole state, after a gap if the
      browser had asked to resume. */
  ghost function Welcome(y: Sys): seq<Frame>
    requires y.client.state.seqNo <= |y.inputs|
  {
    var n, kept := y.client.state.seqNo, |y.net.hub.log.buf|;
    if !y.net.hub.closed && 0 < n && |y.inputs| <= n + kept then Missed(y.start, y.inputs, n)
    else (if n > 0 then [GapFrame] else []) + [SnapshotFrame(Snapshot(|y.inputs|, Run(y.start, y.inputs)))]
  }

  lemma StampedIsMissed(start: Chat, inputs: seq<Payload>, history: seq<Payload>, n: nat)
    requires LogOk(start, inputs, history) && n <= |inputs|
    ensures |history| == |inputs| && ToFrames(Stamped(history)[n..]) == Missed(start, inputs, n)
  {
    hide LogOk, FrameAt;
    LogLength(start, inputs, history);
    var frames := ToFrames(Stamped(history)[n..]);
    forall i | 0 <= i < |inputs| - n ensures frames[i] == FrameAt(start, inputs, n + i + 1) {
      EntryIsGenuine(start, inputs, history, n + i + 1);
    }
  }

  lemma FirstStageWelcomes(y: Sys)
    requires ServerOk(y) && y.client.state.seqNo <= |y.inputs|
    ensures var snap := Snapshot(y.net.hub.log.seqNo, y.chat);
            Prologue(FirstStage(y.net.hub, y.client.state.seqNo), snap) == Welcome(y)
  {
    hide Fanout.ChannelsOk, Fanout.CloserOk, Fanout.Apart, Run, LogOk;
    var h, history, n := y.net.hub, y.net.history, y.client.state.seqNo;
    LogLength(y.start, y.inputs, history);
    if n > 0 { ResumeIsExact(h.log, history, |h.log.buf|, n); }
    StampedIsMissed(y.start, y.inputs, history, n);
  }

  /** In every reachable state: a browser that reconnects is sent, before
      anything else, exactly the events it missed, or a gap and the complete
      state when the log no longer has them. */
  lemma ReconnectSends(start: Chat, run: seq<Act>, s: SubId)
    requires Legal(start, run) && Enabled(After(start, run), Connect(s))
    ensures Legal(start, run + [Connect(s)])
    ensures var y := After(start, run);
            && y.client.state.seqNo <= |y.inputs|
            && After(start, run + [Connect(s)]).conn.Some?
            && WriteAll(After(start, run + [Connect(s)])).conn == Some(Conn(s, Stream, Welcome(y)))
  {
    hide Legal, After, ServerOk, PipeOk, Welcome, FirstStage;
    ReachableInv(start, run);
    Extend(start, run, Connect(s));
    var y := After(start, run);
    ClientBehind(y);
    FirstStageWelcomes(y);
    Connected(y, s);
    WriteAllIsPrologue(Next(y, Connect(s)));
    assert [] + Welcome(y) == Welcome(y);
  }

  lemma ClientBehind(y: Sys)
    requires Inv(y)
    ensures y.client.state.seqNo <= |y.inputs|
  {
    hide ServerOk, PipeOk, ReduceAll, Simulation.Frames;
  }

  lemma Connected(y: Sys, s: SubId)
    requires Enabled(y, Connect(s))
    ensures var z := Next(y, Connect(s));
            && z.conn == Some(Conn(s, FirstStage(y.net.hub, y.client.state.seqNo), []))
            && z.net.hub.log == y.net.hub.log && z.chat == y.chat && z.inputs == y.inputs && z.client == y.client
            && (!y.net.hub.closed ==> s in z.net.hub.subs)
  {
    hide FirstStage;
  }

  /** While the chat is open, leaving it or losing the connection and connecting
      again is always possible, and then leads to the same: once nothing is left
      to write, deliver or flush, the browser has seen every event. */
  lemma RejoiningCatchesUp(start: Chat, run: seq<Act>, away: Act, s: SubId, more: seq<Act>)
    requires Legal(start, run) && !After(start, run).net.hub.closed && s !in After(start, run).net.hub.chans
    requires away.Leave? || (away.Cut? && After(start, run).conn.Some?)
    ensures Legal(start, run + [away] + [Connect(s)])
    ensures Legal(start, run + [away] + [Connect(s)] + more) && AllMoves(more)
            && Quiet(After(start, run + [away] + [Connect(s)] + more)) ==>
              var z := After(start, run + [away] + [Connect(s)] + more);
              z.client.synced && z.client.state.seqNo == |z.inputs| == |After(start, run).inputs|
  {
    hide Legal, After, AllMoves, Quiet, Inv, FirstStage;
    ReachableInv(start, run);
    InvIsWired(After(start, run));
    Extend(start, run, away);
    Extend(start, run + [away], Connect(s));
    Connected(After(start, run + [away]), s);
    if Legal(start, run + [away] + [Connect(s)] + more) && AllMoves(more)
       && Quiet(After(start, run + [away] + [Connect(s)] + more)) {
      ScheduleCatchesUp(start, run + [away] + [Connect(s)], more);
    }
  }

  lemma InvIsWired(y: Sys)
    requires Inv(y)
    ensures Wired(y.net.hub)
  {
    hide PipeOk, ClientOk, LogOk, Fanout.LogOk, Fanout.CloserOk, Fanout.Apart, Fanout.Level, Fanout.ChannelOk;
  }

  /** In every reachable state anything may be published, the chat may be left, a
      connection may break, and a browser without one may connect. */
  lemma StepsArePossible(start: Chat, run: seq<Act>, p: Payload, s: SubId)
    requires Legal(start, run)
    ensures Legal(start, run + [Publish(p)]) && Legal(start, run + [Leave])
    ensures After(start, run).conn.Some? ==> Legal(start, run + [Cut])
    ensures After(start, run).conn.None? && s !in After(start, run).net.hub.chans ==> Legal(start, run + [Connect(s)])
  {
    hide Legal, After, Inv;
    ReachableInv(start, run);
    InvIsWired(After(start, run));
    Extend(start, run, Publish(p));
    Extend(start, run, Leave);
    Extend(start, run, Cut);
    Extend(start, run, Connect(s));
  }
}
