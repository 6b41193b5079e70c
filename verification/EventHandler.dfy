/** The handler of one event connection: subscribe, then replay or snapshot,
    then stream. Left alone, it writes exactly what the handler steps of the
    reconnect model write one at a time. */
module EventHandlers {
  import opened Protocol
  import opened Reducer
  import opened EventLog
  import opened EventHub
  import opened LiveChats
  import opened Reconnect

  function ToFrames(entries: seq<Entry<Payload>>): (r: seq<Frame>)
    ensures |r| == |entries|
  {
    seq(|entries|, i requires 0 <= i < |entries| => ToFrame(entries[i]))
  }

  /** What a stage writes before the stream. */
  function Prologue(stage: Stage, snap: Snapshot): seq<Frame> {
    match stage
    case SendReplay(rest) => ToFrames(rest)
    case SendGap => [GapFrame, SnapshotFrame(snap)]
    case SendSnapshot => [SnapshotFrame(snap)]
    case Stream => []
  }

  /** Subscribe before looking at the state, so that nothing falls between. */
  method Open(chat: LiveChat, s: SubId, lastId: nat) returns (frames: seq<Frame>)
    requires chat.Valid() && s !in chat.chans
    modifies chat`subs, chat`chans
    ensures chat.Valid() && chat.HubView() == EventHub.Subscribe(old(chat.HubView()), s)
    ensures frames == Prologue(FirstStage(old(chat.HubView()), lastId), Snapshot(chat.seqNo, chat.ChatView()))
  {
    frames := [];
    var replay := chat.Subscribe(s, lastId);
    if replay.Some? {
      var i := 0;
      while i < |replay.value|
        invariant i <= |replay.value| && frames == ToFrames(replay.value[..i])
      {
        frames := frames + [ToFrame(replay.value[i])];
        assert replay.value[..i + 1] == replay.value[..i] + [replay.value[i]];
        i := i + 1;
      }
      assert replay.value[..i] == replay.value;
    } else {
      if lastId > 0 { frames := frames + [GapFrame]; }
      var snap := chat.TakeSnapshot();
      frames := frames + [SnapshotFrame(snap)];
    }
  }

  /** The stream loop over what the channel holds now. */
  method Drain(chat: LiveChat, s: SubId) returns (frames: seq<Frame>)
    requires chat.Valid() && s in chat.chans && 0 <= chat.chans[s].taken <= |chat.chans[s].sent|
    modifies chat`chans
    ensures chat.Valid() && chat.chans.Keys == old(chat.chans).Keys
    ensures frames == ToFrames(old(chat.chans)[s].sent[old(chat.chans)[s].taken..])
    ensures chat.chans[s] == old(chat.chans)[s].(taken := |old(chat.chans)[s].sent|)
    ensures forall t :: t in chat.chans && t != s ==> chat.chans[t] == old(chat.chans)[t]
  {
    frames := [];
    ghost var c := chat.chans[s];
    while chat.chans[s].taken < |chat.chans[s].sent|
      invariant chat.Valid() && chat.chans.Keys == old(chat.chans).Keys
      invariant c.taken <= chat.chans[s].taken <= |c.sent| && chat.chans[s] == c.(taken := chat.chans[s].taken)
      invariant frames == ToFrames(c.sent[c.taken..chat.chans[s].taken])
      invariant forall t :: t in chat.chans && t != s ==> chat.chans[t] == old(chat.chans)[t]
      decreases |c.sent| - chat.chans[s].taken
    {
      var now := chat.chans[s];
      frames := frames + [ToFrame(now.sent[now.taken])];
      assert c.sent[c.taken..now.taken + 1] == c.sent[c.taken..now.taken] + [now.sent[now.taken]];
      chat.chans := chat.chans[s := now.(taken := now.taken + 1)];
    }
    assert c.sent[c.taken..|c.sent|] == c.sent[c.taken..];
  }

  /** How many steps a stage still has before the stream. */
  function Remaining(stage: Stage): nat {
    match stage
    case SendReplay(rest) => |rest| + 1
    case SendGap => 2
    case SendSnapshot => 1
    case Stream => 0
  }

  /** Only the handler moves, until its prologue is out. */
  function WriteAll(y: Sys): Sys
    requires y.conn.Some?
    decreases Remaining(y.conn.value.stage)
  {
    if y.conn.value.stage.Stream? then y else WriteAll(WriteNext(y, y.conn.value))
  }

  /** The handler's steps, uninterrupted, write the prologue. */
  lemma {:induction false} WriteAllIsPrologue(y: Sys)
    requires y.conn.Some?
    ensures var conn := y.conn.value;
            WriteAll(y) == y.(conn := Some(Conn(conn.sub, Stream,
                             conn.wire + Prologue(conn.stage, Snapshot(y.net.hub.log.seqNo, y.chat)))))
    decreases Remaining(y.conn.value.stage)
  {
    var conn := y.conn.value;
    var snap := SnapshotFrame(Snapshot(y.net.hub.log.seqNo, y.chat));
    if !conn.stage.Stream? {
      WriteAllIsPrologue(WriteNext(y, conn));
    }
    match conn.stage
    case SendReplay(rest) =>
      if rest == [] {
        assert conn.wire + ToFrames(rest) == conn.wire;
        assert conn.wire + [] == conn.wire;
      } else {
        assert ToFrames(rest) == [ToFrame(rest[0])] + ToFrames(rest[1..]);
        assert (conn.wire + [ToFrame(rest[0])]) + ToFrames(rest[1..]) == conn.wire + ToFrames(rest);
      }
    case SendGap =>
      assert (conn.wire + [GapFrame]) + [snap] == conn.wire + [GapFrame, snap];
    case SendSnapshot =>
      assert (conn.wire + [snap]) + [] == conn.wire + [snap];
    case Stream =>
      assert conn.wire + [] == conn.wire;
  }
}
