/** One browser and one chat over any number of connections: publications,
    slow-client drops, concurrent closes, other subscribers, broken connections
    and reconnects that send the browser's own sequence number. */
module Reconnect {
  import Common
  import opened Protocol
  import opened Timeline
  import opened Reducer
  import opened EventLog
  import opened EventHub
  import Fanout
  import Simulation

  /** What the handler of a connection still has to write. */
  datatype Stage = SendReplay(rest: seq<Entry<Payload>>) | SendGap | SendSnapshot | Stream

  /** A connection: its channel, its handler's stage, the frames under way. */
  datatype Conn = Conn(sub: SubId, stage: Stage, wire: seq<Frame>)

  /** The browser. Frames wait in `inbox`, also across a reconnect, until the
      next animation frame reduces them; leaving the chat discards them and keeps
    the reduced state. `synced`, `base` and `applied` only
      record what happened: a snapshot was taken, its sequence number, and the
      frames applied since. */
  datatype Client = Client(state: ChatState, inbox: seq<Frame>, synced: bool, base: nat, applied: seq<Frame>)

  /** `inputs` are the events of the chat in order, terminal ones included. */
  datatype Sys = Sys(start: Chat, inputs: seq<Payload>, chat: Chat, net: Fanout.System<Payload>,
                     conn: Option<Conn>, client: Client)

  datatype Act =
    | Publish(p: Payload)
    | MarkClose(k: Fanout.CloserId, reason: string)
    | Others(a: Fanout.Action<Payload>)
    | Connect(s: SubId)
    | Write
    | Deliver
    | Flush
    | Cut
    | Leave

  function Initial(start: Chat): Sys {
    Sys(start, [], start, Fanout.Initial(), None, Client(INITIAL, [], false, 0, []))
  }

  predicate Enabled(y: Sys, act: Act) {
    Wired(y.net.hub) &&
    match act
    case MarkClose(k, reason) => Fanout.Enabled(y.net, Fanout.MarkClose(k, ChatClosed(reason)))
    case Others(a) =>
      && Fanout.Enabled(y.net, a) && !a.DoPublish? && !a.MarkClose?
      && (a.DoReceive? && y.conn.Some? ==> a.s != y.conn.value.sub)
    case Connect(s) => y.conn.None? && s !in y.net.hub.chans
    case Write => y.conn.Some? && y.conn.value.sub in y.net.hub.chans
    case Deliver => y.conn.Some? && y.conn.value.wire != []
    case Flush => y.client.inbox != []
    case Cut => y.conn.Some?
    case _ => true
  }

  function ToFrame(e: Entry<Payload>): Frame { EventFrame(e.seqNo, Wire(e.body)) }

  /** The handler starts with a replay if the log still reaches back to the
      browser's sequence number, else with a snapshot, announced by a gap if
      the browser asked to resume. */
  function FirstStage(h: Hub<Payload>, lastId: nat): Stage {
    match if h.closed then None else Resume(h.log, lastId)
    case Some(replay) => SendReplay(replay)
    case None => if lastId > 0 then SendGap else SendSnapshot
  }

  /** The handler writes its next frame, or waits. */
  function WriteNext(y: Sys, conn: Conn): Sys {
    match conn.stage
    case SendReplay(rest) =>
      if rest == [] then y.(conn := Some(conn.(stage := Stream)))
      else y.(conn := Some(conn.(stage := SendReplay(rest[1..]), wire := conn.wire + [ToFrame(rest[0])])))
    case SendGap => y.(conn := Some(conn.(stage := SendSnapshot, wire := conn.wire + [GapFrame])))
    case SendSnapshot =>
      var snap := Snapshot(y.net.hub.log.seqNo, y.chat);
      y.(conn := Some(conn.(stage := Stream, wire := conn.wire + [SnapshotFrame(snap)])))
    case Stream =>
      if conn.sub in y.net.hub.chans && Depth(y.net.hub.chans[conn.sub]) > 0
         && 0 <= y.net.hub.chans[conn.sub].taken then
        var c := y.net.hub.chans[conn.sub];
        y.(net := y.net.(hub := Receive(y.net.hub, conn.sub)),
           conn := Some(conn.(wire := conn.wire + [ToFrame(c.sent[c.taken])])))
      else y
  }

  /** Reduce one frame and record what it did. */
  function Consume(c: Client, f: Frame): Client {
    var next := c.(state := Reduce(c.state, f));
    match f
    case SnapshotFrame(snap) => next.(synced := true, base := snap.seqNo, applied := [])
    case EventFrame(n, _) => if n > c.state.seqNo then next.(applied := c.applied + [f]) else next
    case GapFrame => next
  }

  function Next(y: Sys, act: Act): Sys
    requires Enabled(y, act)
  {
    match act
    case Publish(p) =>
      if y.net.hub.closed then y
      else
        var (chat, out) := Apply(y.chat, p);
        y.(inputs := y.inputs + [p], chat := chat, net := Fanout.Next(y.net, Fanout.DoPublish(out), LIMITS))
    case MarkClose(k, reason) =>
      y.(inputs := y.inputs + [ChatClosed(reason)],
         net := Fanout.Next(y.net, Fanout.MarkClose(k, ChatClosed(reason)), LIMITS))
    case Others(a) => y.(net := Fanout.Next(y.net, a, LIMITS))
    case Connect(s) =>
      y.(net := y.net.(hub := Subscribe(y.net.hub, s)),
         conn := Some(Conn(s, FirstStage(y.net.hub, y.client.state.seqNo), [])))
    case Write => WriteNext(y, y.conn.value)
    case Deliver =>
      var conn := y.conn.value;
      y.(conn := Some(conn.(wire := conn.wire[1..])),
         client := y.client.(inbox := y.client.inbox + [conn.wire[0]]))
    case Flush => y.(client := Consume(y.client.(inbox := y.client.inbox[1..]), y.client.inbox[0]))
    case Cut => y.(conn := None)
    case Leave => y.(conn := None, client := y.client.(inbox := []))
  }

  const LIMITS := Fanout.Limits(1024, 256)

  // --------------------------------------------------------- gapless frames

  /** How far a reader of frames is: nowhere, or at a sequence number. */
  datatype Pos = Fresh | At(n: nat)

  predicate Follows(pos: Pos, f: Frame) {
    match f
    case EventFrame(n, _) => pos.At? && 0 < n <= pos.n + 1
    case SnapshotFrame(snap) => pos.At? ==> pos.n <= snap.seqNo
    case GapFrame => true
  }

  function Past(pos: Pos, f: Frame): Pos {
    match f
    case EventFrame(n, _) => if pos.At? && n < pos.n then pos else At(n)
    case SnapshotFrame(snap) => At(snap.seqNo)
    case GapFrame => pos
  }

  /** No frame skips an event, and no snapshot goes back. */
  predicate Gapless(pos: Pos, frames: seq<Frame>)
    decreases |frames|
  {
    frames == [] || (Follows(pos, frames[0]) && Gapless(Past(pos, frames[0]), frames[1..]))
  }

  function EndPos(pos: Pos, frames: seq<Frame>): Pos
    decreases |frames|
  {
    if frames == [] then pos else EndPos(Past(pos, frames[0]), frames[1..])
  }

  lemma {:induction false} GaplessAppend(pos: Pos, a: seq<Frame>, b: seq<Frame>)
    ensures Gapless(pos, a + b) <==> Gapless(pos, a) && Gapless(EndPos(pos, a), b)
    ensures EndPos(pos, a + b) == EndPos(EndPos(pos, a), b)
    decreases |a|
  {
    if a == [] {
      assert a + b == b;
    } else {
      assert (a + b)[1..] == a[1..] + b;
      GaplessAppend(Past(pos, a[0]), a[1..], b);
    }
  }

  lemma GaplessSnoc(pos: Pos, a: seq<Frame>, f: Frame)
    requires Gapless(pos, a) && Follows(EndPos(pos, a), f)
    ensures Gapless(pos, a + [f]) && EndPos(pos, a + [f]) == Past(EndPos(pos, a), f)
  {
    GaplessAppend(pos, a, [f]);
    assert [f][1..] == [];
  }

  lemma {:induction false} EndPosGrows(pos: Pos, frames: seq<Frame>)
    requires Gapless(pos, frames) && pos.At?
    ensures EndPos(pos, frames).At? && EndPos(pos, frames).n >= pos.n
    decreases |frames|
  {
    if frames != [] { EndPosGrows(Past(pos, frames[0]), frames[1..]); }
  }

  // -------------------------------------------------------------- invariant

  /** The `n`-th event of the chat as it is sent. */
  function FrameAt(start: Chat, inputs: seq<Payload>, n: nat): Frame
    requires 0 < n <= |inputs|
  {
    EventFrame(n, Simulation.Broadcast(Run(start, inputs[..n - 1]), inputs[n - 1]))
  }

  /** A frame says what really happened. */
  ghost predicate Genuine(start: Chat, inputs: seq<Payload>, f: Frame) {
    match f
    case EventFrame(n, _) => 0 < n <= |inputs| && f == FrameAt(start, inputs, n)
    case SnapshotFrame(snap) => snap.seqNo <= |inputs| && snap.chat == Run(start, inputs[..snap.seqNo])
    case GapFrame => true
  }

  ghost predicate AllGenuine(start: Chat, inputs: seq<Payload>, frames: seq<Frame>) {
    forall i :: 0 <= i < |frames| ==> Genuine(start, inputs, frames[i])
  }

  /** The log holds what the reducer broadcast, event by event. */
  ghost predicate LogOk(start: Chat, inputs: seq<Payload>, history: seq<Payload>) {
    && |history| == |inputs|
    && forall i :: 0 <= i < |inputs| ==> history[i] == Apply(Run(start, inputs[..i]), inputs[i]).1
  }

  ghost predicate ServerOk(y: Sys) {
    && Fanout.Inv(y.net, LIMITS)
    && y.chat == Run(y.start, y.inputs)
    && LogOk(y.start, y.inputs, y.net.history)
  }

  function ClientPos(c: Client): Pos { if c.synced then At(c.state.seqNo) else Fresh }

  /** Since its last snapshot the browser has applied exactly the events after
      it up to its own sequence number, each once and in order. */
  ghost predicate ClientOk(start: Chat, inputs: seq<Payload>, c: Client) {
    && c.state.seqNo <= |inputs|
    && (!c.synced ==> c.state == INITIAL && c.applied == [])
    && (c.synced ==>
          && c.base <= c.state.seqNo
          && c.applied == Simulation.Frames(Run(start, inputs[..c.base]), c.base, inputs[c.base..c.state.seqNo])
          && c.state == ReduceAll(ApplySnapshot(Snapshot(c.base, Run(start, inputs[..c.base]))), c.applied))
  }

  /** Everything between the browser's state and the handler. */
  function InFlight(y: Sys): seq<Frame> {
    y.client.inbox + match y.conn case Some(conn) => conn.wire case None => []
  }

  function Reach(y: Sys): Pos { EndPos(ClientPos(y.client), InFlight(y)) }

  /** What the handler still has to write continues what is under way. */
  ghost predicate StageOk(stage: Stage, c: Channel<Payload>, reach: Pos, history: seq<Payload>) {
    match stage
    case SendReplay(rest) =>
      && c.taken == 0 && reach.At?
      && |rest| <= c.start <= |history|
      && rest == Stamped(history)[c.start - |rest|..c.start]
      && c.start - |rest| <= reach.n
    case SendGap => c.taken == 0
    case SendSnapshot => c.taken == 0
    case Stream => reach.At? && c.start + c.taken <= reach.n
  }

  ghost predicate PipeOk(y: Sys) {
    && Gapless(ClientPos(y.client), InFlight(y))
    && AllGenuine(y.start, y.inputs, InFlight(y))
    && (Reach(y).At? ==> Reach(y).n <= |y.inputs|)
    && (y.conn.Some? ==>
          && y.conn.value.sub in y.net.hub.chans
          && StageOk(y.conn.value.stage, y.net.hub.chans[y.conn.value.sub], Reach(y), y.net.history))
  }

  ghost predicate Inv(y: Sys) {
    ServerOk(y) && ClientOk(y.start, y.inputs, y.client) && PipeOk(y)
  }

  // ------------------------------------------------------------ small facts

  lemma {:induction false} RunConcat(c: Chat, a: seq<Payload>, b: seq<Payload>)
    ensures Run(Run(c, a), b) == Run(c, a + b)
  {
    if b == [] {
      assert a + b == a;
    } else {
      var b' := b[..|b| - 1];
      RunConcat(c, a, b');
      assert (a + b)[..|a + b| - 1] == a + b';
    }
  }

  lemma GenuineGrows(start: Chat, inputs: seq<Payload>, p: Payload, frames: seq<Frame>)
    requires AllGenuine(start, inputs, frames)
    ensures AllGenuine(start, inputs + [p], frames)
  {
    forall i | 0 <= i < |frames| ensures Genuine(start, inputs + [p], frames[i]) {
      assert Genuine(start, inputs, frames[i]);
      match frames[i]
      case EventFrame(n, _) => assert (inputs + [p])[..n - 1] == inputs[..n - 1];
      case SnapshotFrame(snap) => assert (inputs + [p])[..snap.seqNo] == inputs[..snap.seqNo];
      case GapFrame =>
    }
  }

  lemma ClientGrows(start: Chat, inputs: seq<Payload>, p: Payload, c: Client)
    requires ClientOk(start, inputs, c)
    ensures ClientOk(start, inputs + [p], c)
  {
    if c.synced {
      assert (inputs + [p])[..c.base] == inputs[..c.base];
      assert (inputs + [p])[c.base..c.state.seqNo] == inputs[c.base..c.state.seqNo];
    }
  }

  lemma LogGrows(start: Chat, inputs: seq<Payload>, history: seq<Payload>, p: Payload)
    requires LogOk(start, inputs, history)
    ensures LogOk(start, inputs + [p], history + [Apply(Run(start, inputs), p).1])
    ensures Run(start, inputs + [p]) == Apply(Run(start, inputs), p).0
  {
    var all := inputs + [p];
    assert all[..|all| - 1] == inputs;
    forall i | 0 <= i < |all|
      ensures (history + [Apply(Run(start, inputs), p).1])[i] == Apply(Run(start, all[..i]), all[i]).1
    {
      if i < |inputs| { assert all[..i] == inputs[..i]; } else { assert all[..i] == inputs; }
    }
  }

  /** An entry of the log is sent as the genuine frame of its number. */
  lemma EntryIsGenuine(start: Chat, inputs: seq<Payload>, history: seq<Payload>, n: nat)
    requires LogOk(start, inputs, history) && 0 < n <= |history|
    ensures Genuine(start, inputs, ToFrame(Entry(n, history[n - 1])))
  {
    assert history[n - 1] == Apply(Run(start, inputs[..n - 1]), inputs[n - 1]).1;
  }

  lemma StageGrows(stage: Stage, c: Channel<Payload>, d: Channel<Payload>, reach: Pos,
                   history: seq<Payload>, grown: seq<Payload>)
    requires StageOk(stage, c, reach, history)
    requires d.start == c.start && d.taken == c.taken && history <= grown
    ensures StageOk(stage, d, reach, grown)
  {
    if stage.SendReplay? {
      var rest := stage.rest;
      assert Stamped(grown)[c.start - |rest|..c.start] == Stamped(history)[c.start - |rest|..c.start];
    }
  }

  // ------------------------------------------------------------ server steps

  lemma ChannelKept(y: Fanout.System<Payload>, a: Fanout.Action<Payload>, s: SubId)
    requires Fanout.Enabled(y, a) && s in y.hub.chans
    requires !(a.DoReceive? && a.s == s)
    ensures var z := Fanout.Next(y, a, LIMITS);
            && s in z.hub.chans
            && z.hub.chans[s].start == y.hub.chans[s].start
            && z.hub.chans[s].taken == y.hub.chans[s].taken
            && y.history <= z.history
  {
  }

  lemma PublishKeeps(y: Sys, p: Payload)
    requires Inv(y)
    ensures Inv(Next(y, Publish(p)))
  {
    if !y.net.hub.closed {
      hide Apply, Fanout.Inv, Gapless, EndPos, Reduce, ClientOk;
      var out := Apply(y.chat, p).1;
      GrowKeeps(y, Next(y, Publish(p)), p, Fanout.DoPublish(out));
    }
  }

  lemma MarkKeeps(y: Sys, k: Fanout.CloserId, reason: string)
    requires Inv(y) && Enabled(y, MarkClose(k, reason))
    ensures Inv(Next(y, MarkClose(k, reason)))
  {
    hide Inv, Apply;
    ClosedLeavesChat(y.chat, reason);
    GrowKeeps(y, Next(y, MarkClose(k, reason)), ChatClosed(reason), Fanout.MarkClose(k, ChatClosed(reason)));
  }

  lemma ClosedLeavesChat(chat: Chat, reason: string)
    ensures Apply(chat, ChatClosed(reason)) == (chat, ChatClosed(reason))
  {
  }

  /** A step that appends one event to the chat and its log. */
  lemma GrowKeeps(y: Sys, z: Sys, p: Payload, a: Fanout.Action<Payload>)
    requires Inv(y) && Fanout.Enabled(y.net, a) && !a.DoReceive?
    requires z == y.(inputs := y.inputs + [p], chat := Apply(y.chat, p).0, net := Fanout.Next(y.net, a, LIMITS))
    requires z.net.history == y.net.history + [Apply(y.chat, p).1]
    ensures Inv(z)
  {
    hide Apply, Fanout.Inv, Fanout.Next, Gapless, EndPos, Genuine, StageOk;
    Fanout.StepKeeps(y.net, a, LIMITS);
    LogGrows(y.start, y.inputs, y.net.history, p);
    ClientGrows(y.start, y.inputs, p, y.client);
    GenuineGrows(y.start, y.inputs, p, InFlight(y));
    if y.conn.Some? {
      var s := y.conn.value.sub;
      ChannelKept(y.net, a, s);
      StageGrows(y.conn.value.stage, y.net.hub.chans[s], z.net.hub.chans[s], Reach(y), y.net.history, z.net.history);
    }
  }

  lemma OthersKeeps(y: Sys, a: Fanout.Action<Payload>)
    requires Inv(y) && Enabled(y, Others(a))
    ensures Inv(Next(y, Others(a)))
  {
    var z := Next(y, Others(a));
    assert z.net.history == y.net.history;
    hide Fanout.Inv, Fanout.Next, Gapless, EndPos, Genuine, StageOk, ClientOk, LogOk;
    Fanout.StepKeeps(y.net, a, LIMITS);
    if y.conn.Some? {
      var s := y.conn.value.sub;
      ChannelKept(y.net, a, s);
      StageGrows(y.conn.value.stage, y.net.hub.chans[s], z.net.hub.chans[s], Reach(y), y.net.history, z.net.history);
    }
  }

  // -------------------------------------------------------- connection steps

  lemma CutKeeps(y: Sys)
    requires Enabled(y, Cut) && Inv(y)
    ensures Inv(Next(y, Cut))
  {
    hide Fanout.Inv, ClientOk, LogOk, PipeOk;
    CutPipe(y);
  }

  lemma CutPipe(y: Sys)
    requires Enabled(y, Cut) && PipeOk(y)
    ensures PipeOk(Next(y, Cut))
  {
    hide Gapless, EndPos, Genuine, StageOk;
    var pos, inbox, wire := ClientPos(y.client), y.client.inbox, y.conn.value.wire;
    assert InFlight(y) == inbox + wire;
    assert InFlight(Next(y, Cut)) == inbox;
    GaplessAppend(pos, inbox, wire);
    if EndPos(pos, inbox).At? { EndPosGrows(EndPos(pos, inbox), wire); }
    forall i | 0 <= i < |inbox| ensures Genuine(y.start, y.inputs, inbox[i]) {
      assert inbox[i] == InFlight(y)[i];
    }
  }

  lemma LeaveKeeps(y: Sys)
    requires Enabled(y, Leave) && Inv(y)
    ensures Inv(Next(y, Leave))
  {
    hide Fanout.Inv, ClientOk, LogOk, PipeOk;
    InboxIsNotState(y.start, y.inputs, y.client, []);
    LeavePipe(y);
  }

  lemma LeavePipe(y: Sys)
    requires Enabled(y, Leave) && ClientOk(y.start, y.inputs, y.client)
    ensures PipeOk(Next(y, Leave))
  {
    hide ReduceAll, Simulation.Frames;
    assert InFlight(Next(y, Leave)) == [];
  }

  lemma DeliverMoves(y: Sys)
    requires Enabled(y, Deliver)
    ensures var z := Next(y, Deliver);
            InFlight(z) == InFlight(y) && z.conn.Some? && z.conn.value.sub == y.conn.value.sub
            && z.conn.value.stage == y.conn.value.stage && z.client == y.client.(inbox := z.client.inbox)
            && z.net == y.net && z.inputs == y.inputs && z.chat == y.chat && z.start == y.start
  {
    var wire := y.conn.value.wire;
    assert wire == [wire[0]] + wire[1..];
  }

  lemma DeliverKeeps(y: Sys)
    requires Inv(y) && Enabled(y, Deliver)
    ensures Inv(Next(y, Deliver))
  {
    hide Next, InFlight, ClientOk, ClientPos, StageOk, Gapless, EndPos, AllGenuine, Fanout.Inv, LogOk;
    DeliverMoves(y);
    InboxIsNotState(y.start, y.inputs, y.client, Next(y, Deliver).client.inbox);
  }

  /** The first stage fits a channel opened at the end of the log. */
  lemma FirstStageFits(h: Hub<Payload>, history: seq<Payload>, lastId: nat, reach: Pos)
    requires Retains(h.log, history, |h.log.buf|) && (history != [] ==> h.log.buf != [])
    requires lastId > 0 ==> reach.At? && lastId <= reach.n
    ensures StageOk(FirstStage(h, lastId), Channel(|history|, [], 0, h.closed, 0), reach, history)
  {
    if lastId > 0 {
      ResumeIsExact(h.log, history, |h.log.buf|, lastId);
    }
  }

  lemma ServerFacts(y: Sys)
    requires Inv(y)
    ensures Fanout.LogOk(y.net.hub, y.net.history, LIMITS.capacity) && |y.net.history| == |y.inputs|
    ensures y.client.state.seqNo > 0 ==> y.client.synced
  {
    hide PipeOk, ReduceAll, Simulation.Frames;
  }

  lemma ConnectKeeps(y: Sys, s: SubId)
    requires Inv(y) && Enabled(y, Connect(s))
    ensures Inv(Next(y, Connect(s)))
  {
    hide PipeOk, Fanout.Inv, LogOk, ClientOk, Fanout.LogOk, Subscribe, FirstStage;
    ServerFacts(y);
    Fanout.SubscribeKeeps(y.net, s, LIMITS);
    ConnectPipe(y, s);
  }

  lemma ConnectPipe(y: Sys, s: SubId)
    requires Fanout.LogOk(y.net.hub, y.net.history, LIMITS.capacity) && |y.net.history| == |y.inputs|
    requires y.client.state.seqNo > 0 ==> y.client.synced
    requires PipeOk(y) && Enabled(y, Connect(s))
    ensures PipeOk(Next(y, Connect(s)))
  {
    var z := Next(y, Connect(s));
    assert InFlight(z) == InFlight(y);
    if y.client.state.seqNo > 0 { EndPosGrows(ClientPos(y.client), InFlight(y)); }
    FirstStageFits(y.net.hub, y.net.history, y.client.state.seqNo, Reach(y));
    hide Gapless, EndPos, AllGenuine, StageOk, FirstStage, Fanout.LogOk;
  }

  /** Writing one more frame that continues what is under way. */
  lemma WireGrows(y: Sys, z: Sys, f: Frame)
    requires PipeOk(y) && y.conn.Some? && z.conn.Some?
    requires z.client == y.client && z.start == y.start && z.inputs == y.inputs
    requires z.conn.value.wire == y.conn.value.wire + [f]
    requires Follows(Reach(y), f) && Genuine(y.start, y.inputs, f)
    ensures Gapless(ClientPos(z.client), InFlight(z))
    ensures Reach(z) == Past(Reach(y), f)
    ensures AllGenuine(z.start, z.inputs, InFlight(z))
  {
    assert InFlight(z) == InFlight(y) + [f];
    GaplessSnoc(ClientPos(y.client), InFlight(y), f);
  }

  lemma WriteReplayKeeps(y: Sys)
    requires Enabled(y, Write) && y.conn.value.stage.SendReplay? && Inv(y)
    ensures Inv(Next(y, Write))
  {
    hide Fanout.Inv, PipeOk, ClientOk, LogOk;
    WriteReplayPipe(y);
  }

  lemma WriteReplayPipe(y: Sys)
    requires PipeOk(y) && Enabled(y, Write) && y.conn.value.stage.SendReplay?
    requires LogOk(y.start, y.inputs, y.net.history)
    ensures PipeOk(Next(y, Write))
  {
    hide Gapless, EndPos, LogOk, Genuine;
    var z, conn := Next(y, Write), y.conn.value;
    var rest := conn.stage.rest;
    var c := y.net.hub.chans[conn.sub];
    if rest == [] {
      assert InFlight(z) == InFlight(y);
    } else {
      var n := c.start - |rest| + 1;
      assert rest[0] == Stamped(y.net.history)[n - 1] == Entry(n, y.net.history[n - 1]);
      EntryIsGenuine(y.start, y.inputs, y.net.history, n);
      WireGrows(y, z, ToFrame(rest[0]));
      assert rest[1..] == Stamped(y.net.history)[n..c.start];
      assert |y.net.history| == |y.inputs| by { LogLength(y.start, y.inputs, y.net.history); }
    }
  }

  lemma LogLength(start: Chat, inputs: seq<Payload>, history: seq<Payload>)
    requires LogOk(start, inputs, history)
    ensures |history| == |inputs|
  {
  }

  lemma WriteSnapshotKeeps(y: Sys)
    requires Enabled(y, Write) && (y.conn.value.stage.SendGap? || y.conn.value.stage.SendSnapshot?)
    requires Inv(y)
    ensures Inv(Next(y, Write))
  {
    hide Gapless, EndPos, ClientOk;
    var z, conn := Next(y, Write), y.conn.value;
    assert y.inputs[..|y.inputs|] == y.inputs;
    if conn.stage.SendGap? {
      WireGrows(y, z, GapFrame);
    } else {
      WireGrows(y, z, SnapshotFrame(Snapshot(y.net.hub.log.seqNo, y.chat)));
    }
  }

  lemma WriteStreamPipe(y: Sys)
    requires PipeOk(y) && Enabled(y, Write) && y.conn.value.stage.Stream?
    requires LogOk(y.start, y.inputs, y.net.history)
    requires Fanout.ChannelOk(y.net.hub.chans[y.conn.value.sub], y.net.history, LIMITS.room)
    ensures PipeOk(Next(y, Write))
  {
    var z, conn := Next(y, Write), y.conn.value;
    var c := y.net.hub.chans[conn.sub];
    if Depth(c) > 0 {
      var n := c.start + c.taken + 1;
      assert c.sent[c.taken] == Entry(n, y.net.history[n - 1]);
      EntryIsGenuine(y.start, y.inputs, y.net.history, n);
      hide Gapless, EndPos, Genuine, AllGenuine, LogOk;
      WireGrows(y, z, ToFrame(c.sent[c.taken]));
    }
  }

  lemma WriteStreamKeeps(y: Sys)
    requires Enabled(y, Write) && y.conn.value.stage.Stream? && Inv(y)
    ensures Inv(Next(y, Write))
  {
    hide PipeOk, Fanout.Inv, Fanout.ChannelOk, LogOk, ClientOk, Receive;
    SubscribedChannel(y);
    Fanout.ReceiveKeeps(y.net, y.conn.value.sub, LIMITS);
    WriteStreamPipe(y);
    WriteStreamNet(y);
  }

  lemma SubscribedChannel(y: Sys)
    requires Fanout.Inv(y.net, LIMITS) && Enabled(y, Write)
    ensures Fanout.ChannelOk(y.net.hub.chans[y.conn.value.sub], y.net.history, LIMITS.room)
  {
    hide Fanout.LogOk, Fanout.CloserOk, Fanout.Apart, Fanout.ChannelOk;
  }

  lemma WriteStreamNet(y: Sys)
    requires Enabled(y, Write) && y.conn.value.stage.Stream?
    ensures var z := Next(y, Write);
            && z.inputs == y.inputs && z.chat == y.chat && z.client == y.client
            && (z.net == y.net || z.net == y.net.(hub := Receive(y.net.hub, y.conn.value.sub)))
  {
  }

  lemma SeqNoAfter(state: ChatState, f: Frame)
    requires f.EventFrame? && f.seqNo > state.seqNo
    ensures Reduce(state, f).seqNo == f.seqNo
  {
  }

  lemma FramesNext(start: Chat, inputs: seq<Payload>, base: nat, n: nat)
    requires base < n <= |inputs|
    ensures Simulation.Frames(Run(start, inputs[..base]), base, inputs[base..n])
            == Simulation.Frames(Run(start, inputs[..base]), base, inputs[base..n - 1]) + [FrameAt(start, inputs, n)]
  {
    hide Simulation.Broadcast, Run;
    var before, events := inputs[base..n - 1], inputs[base..n];
    assert events[..|events| - 1] == before && events[|events| - 1] == inputs[n - 1];
    assert inputs[..base] + before == inputs[..n - 1];
    RunConcat(start, inputs[..base], before);
  }

  lemma ReduceAllNext(state: ChatState, frames: seq<Frame>, f: Frame)
    ensures ReduceAll(state, frames + [f]) == Reduce(ReduceAll(state, frames), f)
  {
    hide Reduce;
    assert (frames + [f])[..|frames|] == frames;
  }

  /** Reducing a genuine event that continues the state appends it. */
  lemma ApplyNext(start: Chat, inputs: seq<Payload>, c: Client, f: Frame)
    requires ClientOk(start, inputs, c) && c.synced
    requires f.EventFrame? && f.seqNo == c.state.seqNo + 1 && Genuine(start, inputs, f)
    ensures ClientOk(start, inputs, Consume(c, f))
  {
    hide Simulation.Broadcast, Simulation.Frames, Run, Reduce, ReduceAll, ApplySnapshot, FrameAt;
    SeqNoAfter(c.state, f);
    FramesNext(start, inputs, c.base, f.seqNo);
    ReduceAllNext(ApplySnapshot(Snapshot(c.base, Run(start, inputs[..c.base]))), c.applied, f);
  }

  /** The browser's own record through one frame. */
  lemma ConsumeKeeps(start: Chat, inputs: seq<Payload>, c: Client, f: Frame)
    requires ClientOk(start, inputs, c)
    requires Follows(ClientPos(c), f) && Genuine(start, inputs, f)
    ensures ClientOk(start, inputs, Consume(c, f))
    ensures ClientPos(Consume(c, f)) == Past(ClientPos(c), f)
    ensures Consume(c, f).inbox == c.inbox
  {
    match f
    case EventFrame(n, _) =>
      if n > c.state.seqNo { ApplyNext(start, inputs, c, f); }
    case SnapshotFrame(snap) =>
      hide Simulation.Broadcast, Apply;
      assert inputs[snap.seqNo..snap.seqNo] == [];
    case GapFrame =>
  }

  lemma FlushPipe(y: Sys)
    requires PipeOk(y) && Enabled(y, Flush)
    requires ClientPos(Next(y, Flush).client) == Past(ClientPos(y.client), y.client.inbox[0])
    requires Next(y, Flush).client.inbox == y.client.inbox[1..]
    ensures PipeOk(Next(y, Flush))
  {
    var z := Next(y, Flush);
    assert InFlight(y)[0] == y.client.inbox[0] && InFlight(y)[1..] == InFlight(z);
    assert Gapless(ClientPos(z.client), InFlight(z)) && Reach(z) == Reach(y);
    hide StageOk, Gapless, EndPos, Past, ClientPos, Genuine, Consume;
    forall i | 0 <= i < |InFlight(z)| ensures Genuine(y.start, y.inputs, InFlight(z)[i]) {
      assert InFlight(z)[i] == InFlight(y)[i + 1];
    }
  }

  lemma InboxHead(y: Sys)
    requires PipeOk(y) && y.client.inbox != []
    ensures Follows(ClientPos(y.client), y.client.inbox[0]) && Genuine(y.start, y.inputs, y.client.inbox[0])
  {
    assert InFlight(y)[0] == y.client.inbox[0];
    hide Genuine;
  }

  lemma InboxIsNotState(start: Chat, inputs: seq<Payload>, c: Client, inbox: seq<Frame>)
    requires ClientOk(start, inputs, c)
    ensures ClientOk(start, inputs, c.(inbox := inbox)) && ClientPos(c.(inbox := inbox)) == ClientPos(c)
  {
    hide ReduceAll, Simulation.Frames;
  }

  lemma FlushKeeps(y: Sys)
    requires Inv(y) && Enabled(y, Flush)
    ensures Inv(Next(y, Flush))
  {
    hide Follows, Past, Genuine, Consume, ClientOk, ClientPos, PipeOk, Fanout.Inv, LogOk;
    InboxHead(y);
    InboxIsNotState(y.start, y.inputs, y.client, y.client.inbox[1..]);
    ConsumeKeeps(y.start, y.inputs, y.client.(inbox := y.client.inbox[1..]), y.client.inbox[0]);
    FlushPipe(y);
  }

  lemma StartFixed(y: Sys, act: Act)
    requires Enabled(y, act)
    ensures Next(y, act).start == y.start
  {
    hide Apply, Fanout.Next, Consume;
  }

  lemma StepKeeps(y: Sys, act: Act)
    requires Inv(y) && Enabled(y, act)
    ensures Inv(Next(y, act)) && Next(y, act).start == y.start
  {
    StartFixed(y, act);
    hide Inv, Next;
    match act
    case Publish(p) => PublishKeeps(y, p);
    case MarkClose(k, reason) => MarkKeeps(y, k, reason);
    case Others(a) => OthersKeeps(y, a);
    case Connect(s) => ConnectKeeps(y, s);
    case Write =>
      if y.conn.value.stage.SendReplay? { WriteReplayKeeps(y); }
      else if y.conn.value.stage.Stream? { WriteStreamKeeps(y); }
      else { WriteSnapshotKeeps(y); }
    case Deliver => DeliverKeeps(y);
    case Flush => FlushKeeps(y);
    case Cut => CutKeeps(y);
    case Leave => LeaveKeeps(y);
  }

  // -------------------------------------------------------------- whole runs

  ghost predicate Legal(start: Chat, run: seq<Act>)
    decreases |run|, 0
  {
    run == [] || (Legal(start, run[..|run| - 1]) && Enabled(After(start, run[..|run| - 1]), run[|run| - 1]))
  }

  ghost function After(start: Chat, run: seq<Act>): Sys
    requires Legal(start, run)
    decreases |run|, 1
  {
    if run == [] then Initial(start) else Next(After(start, run[..|run| - 1]), run[|run| - 1])
  }

  lemma InitialOk(start: Chat)
    ensures Inv(Initial(start)) && Initial(start).start == start
  {
    var y := Initial(start);
    assert InFlight(y) == [];
    assert Fanout.Inv(y.net, LIMITS);
  }

  lemma {:induction false} ReachableInv(start: Chat, run: seq<Act>)
    requires Legal(start, run)
    ensures Inv(After(start, run)) && After(start, run).start == start
  {
    hide Enabled, Inv, Next, Initial;
    if run == [] {
      InitialOk(start);
    } else {
      ReachableInv(start, run[..|run| - 1]);
      StepKeeps(After(start, run[..|run| - 1]), run[|run| - 1]);
    }
  }

  /** Exactly once, over every run: since its last snapshot a synced browser
      has applied the events after it up to its own sequence number, each once,
      in order and unaltered, whatever was lost, replayed or sent twice. */
  lemma ExactlyOnce(start: Chat, run: seq<Act>)
    requires Legal(start, run) && After(start, run).client.synced
    ensures var y := After(start, run);
            var c := y.client;
            && c.base <= c.state.seqNo <= |y.inputs|
            && |c.applied| == c.state.seqNo - c.base
            && (forall i :: 0 <= i < |c.applied| ==> c.applied[i] == FrameAt(start, y.inputs, c.base + i + 1))
            && c.state == ReduceAll(ApplySnapshot(Snapshot(c.base, Run(start, y.inputs[..c.base]))), c.applied)
  {
    hide Simulation.Frames, FrameAt, ReduceAll, ApplySnapshot, PipeOk, ServerOk, Enabled, Next, Run;
    ReachableInv(start, run);
    FramesAt(start, After(start, run).inputs, After(start, run).client.base, After(start, run).client.state.seqNo);
  }

  lemma {:induction false} FramesAt(start: Chat, inputs: seq<Payload>, base: nat, n: nat)
    requires base <= n <= |inputs|
    ensures var fs := Simulation.Frames(Run(start, inputs[..base]), base, inputs[base..n]);
            |fs| == n - base && forall i :: 0 <= i < n - base ==> fs[i] == FrameAt(start, inputs, base + i + 1)
  {
    hide Simulation.Broadcast, Run;
    if base < n {
      FramesAt(start, inputs, base, n - 1);
      var events := inputs[base..n];
      assert events[..|events| - 1] == inputs[base..n - 1];
      RunConcat(start, inputs[..base], inputs[base..n - 1]);
      assert inputs[..base] + inputs[base..n - 1] == inputs[..n - 1];
    }
  }

  /** Nothing is missing: once everything under way has arrived, a browser
      whose subscription still stands has seen every event of the chat. */
  lemma CaughtUp(start: Chat, run: seq<Act>)
    requires Legal(start, run)
    requires var y := After(start, run);
             && InFlight(y) == [] && y.conn.Some? && y.conn.value.stage.Stream?
             && y.conn.value.sub in y.net.hub.subs && y.conn.value.sub in y.net.hub.chans
             && Depth(y.net.hub.chans[y.conn.value.sub]) == 0
    ensures After(start, run).client.synced
    ensures After(start, run).client.state.seqNo == |After(start, run).inputs|
  {
    hide ClientOk, Genuine, Enabled, Next;
    ReachableInv(start, run);
    var y := After(start, run);
    assert Fanout.Level(y.net.hub.chans[y.conn.value.sub], |y.net.history|);
  }

  lemma {:induction false} IdsGrow(s: Chat, a: seq<Payload>, b: seq<Payload>)
    requires Distinct(s.items) && |s.items| <= MAX_ITEMS
    ensures Simulation.AllIds(Run(s, a), b) <= Simulation.AllIds(s, a + b)
  {
    if b == [] {
      Simulation.RunIds(s, a);
      assert a + b == a;
    } else {
      IdsGrow(s, a, b[..|b| - 1]);
      assert (a + b)[..|a + b| - 1] == a + b[..|b| - 1];
    }
  }

  /** End to end: over every run of a chat that lists at most 2000 ids, what
      the browser shows is in step with what the server knew at the browser's
      sequence number. */
  lemma BrowserShowsTheServer(start: Chat, run: seq<Act>)
    requires Legal(start, run) && After(start, run).client.synced
    requires Distinct(start.items) && |start.items| <= MAX_ITEMS
    requires |Simulation.AllIds(start, After(start, run).inputs)| <= MAX_ITEMS
    requires forall i :: 0 <= i < |After(start, run).inputs| ==> Simulation.Faithful(After(start, run).inputs[i])
    ensures var y := After(start, run);
            y.client.state.seqNo <= |y.inputs|
            && Simulation.InStep(y.client.state, Run(start, y.inputs[..y.client.state.seqNo]))
  {
    hide PipeOk, ServerOk, ClientOk, Enabled, Next, Simulation.InStep, Simulation.AllIds, Distinct;
    ReachableInv(start, run);
    RecordInStep(start, After(start, run).inputs, After(start, run).client);
  }

  lemma RecordInStep(start: Chat, inputs: seq<Payload>, c: Client)
    requires ClientOk(start, inputs, c) && c.synced
    requires Distinct(start.items) && |start.items| <= MAX_ITEMS
    requires |Simulation.AllIds(start, inputs)| <= MAX_ITEMS
    requires forall i :: 0 <= i < |inputs| ==> Simulation.Faithful(inputs[i])
    ensures c.state.seqNo <= |inputs| && Simulation.InStep(c.state, Run(start, inputs[..c.state.seqNo]))
  {
    hide Simulation.InStep, Simulation.AllIds, Distinct, Run, Simulation.Frames, ReduceAll, Simulation.Faithful;
    var before, events, n := inputs[..c.base], inputs[c.base..c.state.seqNo], c.state.seqNo;
    var s := Run(start, before);
    Simulation.SnapshotInStep(s, c.base);
    RunKeepsDistinct(start, before);
    assert before + events == inputs[..n];
    IdsGrow(start, before, events);
    AllIdsPrefix(start, inputs, n);
    Common.SubsetCount(Simulation.AllIds(s, events), Simulation.AllIds(start, inputs));
    Simulation.FoldsInStep(ApplySnapshot(Snapshot(c.base, s)), s, events);
    RunConcat(start, before, events);
  }

  lemma {:induction false} AllIdsPrefix(s: Chat, inputs: seq<Payload>, n: nat)
    requires n <= |inputs|
    ensures Simulation.AllIds(s, inputs[..n]) <= Simulation.AllIds(s, inputs)
    decreases |inputs|
  {
    if n == |inputs| {
      assert inputs[..n] == inputs;
    } else {
      AllIdsPrefix(s, inputs[..|inputs| - 1], n);
      assert inputs[..|inputs| - 1][..n] == inputs[..n];
    }
  }
}
