/** Every interleaving of publications, subscriptions, receptions and any
    number of concurrent closes of one chat's event hub. The sends and closes
    that a closing chat makes outside its lock are steps of their own. */
module Fanout {
  import opened Common
  import opened Protocol
  import opened EventLog
  import opened EventHub

  type CloserId = nat

  /** A call of close: past its first check, or telling the subscribers it took
      off the hub one after the other. `Told` is between a send and its close. */
  datatype Closer<+T> =
    | Entered
    | Telling(e: Entry<T>, rest: set<SubId>)
    | Told(e: Entry<T>, rest: set<SubId>, s: SubId)

  datatype System<T> = System(hub: Hub<T>, history: seq<T>, closers: map<CloserId, Closer<T>>)

  datatype Action<T> =
    | DoPublish(body: T)
    | DoSubscribe(s: SubId)
    | DoUnsubscribe(s: SubId)
    | DoReceive(s: SubId)
    | EnterClose(k: CloserId)
    | MarkClose(k: CloserId, body: T)
    | TellLast(k: CloserId, s: SubId)
    | FinishOne(k: CloserId)

  datatype Limits = Limits(capacity: nat, room: nat)

  function Initial<T>(): System<T> { System(EmptyHub(), [], map[]) }

  /** What each thread may do: a new subscription is a new channel, a close
      goes through its own stages. */
  predicate Enabled<T>(y: System<T>, a: Action<T>) {
    Wired(y.hub) &&
    match a
    case DoSubscribe(s) => s !in y.hub.chans
    case EnterClose(k) => k !in y.closers
    case MarkClose(k, _) => k in y.closers && y.closers[k].Entered?
    case TellLast(k, s) => k in y.closers && y.closers[k].Telling? && s in y.closers[k].rest && s in y.hub.chans
    case FinishOne(k) => k in y.closers && y.closers[k].Told? && y.closers[k].s in y.hub.chans
    case _ => true
  }

  function Next<T>(y: System<T>, a: Action<T>, lim: Limits): System<T>
    requires Enabled(y, a)
  {
    match a
    case DoPublish(body) =>
      System(Publish(y.hub, lim.capacity, lim.room, body),
             if y.hub.closed then y.history else y.history + [body], y.closers)
    case DoSubscribe(s) => y.(hub := Subscribe(y.hub, s))
    case DoUnsubscribe(s) => y.(hub := Unsubscribe(y.hub, s))
    case DoReceive(s) => y.(hub := Receive(y.hub, s))
    case EnterClose(k) => if y.hub.closed then y else y.(closers := y.closers[k := Entered])
    case MarkClose(k, body) =>
      System(MarkClosed(y.hub, body), y.history + [body],
             y.closers[k := Telling(Entry(y.hub.log.seqNo + 1, body), y.hub.subs)])
    case TellLast(k, s) =>
      var c := y.closers[k];
      y.(hub := OfferLast(y.hub, s, c.e, lim.room), closers := y.closers[k := Told(c.e, c.rest - {s}, s)])
    case FinishOne(k) =>
      var c := y.closers[k];
      y.(hub := CloseLast(y.hub, c.s), closers := y.closers[k := Telling(c.e, c.rest)])
  }

  // -------------------------------------------------------------- invariant

  function Owed<T>(c: Closer<T>): set<SubId> {
    match c
    case Entered => {}
    case Telling(_, rest) => rest
    case Told(_, rest, s) => rest + {s}
  }

  /** A channel carries a contiguous run of the history and never faulted. */
  ghost predicate ChannelOk<T>(c: Channel<T>, history: seq<T>, room: nat) {
    && c.faults == 0
    && c.start + |c.sent| <= |history|
    && (forall i :: 0 <= i < |c.sent| ==> c.sent[i] == Entry(c.start + i + 1, history[c.start + i]))
    && 0 <= Depth(c) <= room
  }

  /** An open channel that has been sent everything up to `n` since it began. */
  ghost predicate Level<T>(c: Channel<T>, n: nat) {
    !c.closed && c.start + |c.sent| == n
  }

  ghost predicate LogOk<T>(h: Hub<T>, history: seq<T>, capacity: nat) {
    && Retains(h.log, history, |h.log.buf|)
    && |h.log.buf| >= Min(|history|, capacity)
    && (!h.closed ==> |h.log.buf| == Min(|history|, capacity))
  }

  ghost predicate ChannelsOk<T>(h: Hub<T>, history: seq<T>, room: nat) {
    && Wired(h)
    && (forall s :: s in h.chans ==> ChannelOk(h.chans[s], history, room))
    && (forall s :: s in h.subs ==> Level(h.chans[s], |history|))
    && (h.closed ==> h.subs == {})
  }

  /** A closer owes an open channel, level with its entry, to each subscriber
      it still has to tell, and those are no longer on the hub. */
  ghost predicate CloserOk<T>(c: Closer<T>, h: Hub<T>, history: seq<T>) {
    && Owed(c) <= h.chans.Keys
    && Owed(c) !! h.subs
    && (!c.Entered? ==>
          && h.closed
          && 0 < c.e.seqNo <= |history| && c.e == Entry(c.e.seqNo, history[c.e.seqNo - 1])
          && (forall s :: s in c.rest ==> Level(h.chans[s], c.e.seqNo - 1)))
    && (c.Told? ==> c.s !in c.rest && !h.chans[c.s].closed)
  }

  ghost predicate Apart<T>(closers: map<CloserId, Closer<T>>) {
    forall k, l :: k in closers && l in closers && k != l ==> Owed(closers[k]) !! Owed(closers[l])
  }

  ghost predicate Inv<T>(y: System<T>, lim: Limits) {
    && LogOk(y.hub, y.history, lim.capacity)
    && ChannelsOk(y.hub, y.history, lim.room)
    && (forall k :: k in y.closers ==> CloserOk(y.closers[k], y.hub, y.history))
    && Apart(y.closers)
  }

  lemma LogGrows<T>(h: Hub<T>, history: seq<T>, body: T, capacity: nat)
    requires LogOk(h, history, capacity)
    ensures Retains(Append(h.log, capacity, body), history + [body], Min(|h.log.buf| + 1, capacity))
    ensures Retains(AppendTerminal(h.log, body), history + [body], |h.log.buf| + 1)
  {
    AppendRetains(h.log, history, |h.log.buf|, capacity, body);
  }

  /** Offering the next entry to a channel that is level keeps it right. */
  lemma OfferKeeps<T>(c: Channel<T>, history: seq<T>, body: T, room: nat)
    requires ChannelOk(c, history, room)
    ensures ChannelOk(c, history + [body], room)
    ensures Level(c, |history|) ==>
              var d := Offer(c, Entry(|history| + 1, body), room);
              ChannelOk(d, history + [body], room) && (Accepts(c, room) ==> Level(d, |history| + 1))
  {
    var all := history + [body];
    forall i | 0 <= i < |c.sent| ensures c.sent[i] == Entry(c.start + i + 1, all[c.start + i]) {
      assert all[c.start + i] == history[c.start + i];
    }
    if Level(c, |history|) && Accepts(c, room) {
      var d := Send(c, Entry(|history| + 1, body));
      forall i | 0 <= i < |d.sent| ensures d.sent[i] == Entry(d.start + i + 1, all[d.start + i]) {
        if i < |c.sent| { assert d.sent[i] == c.sent[i]; }
      }
    }
  }

  lemma PublishChannels<T>(h: Hub<T>, history: seq<T>, body: T, lim: Limits)
    requires ChannelsOk(h, history, lim.room) && !h.closed && h.log.seqNo == |history|
    ensures ChannelsOk(Publish(h, lim.capacity, lim.room, body), history + [body], lim.room)
  {
    var g := Publish(h, lim.capacity, lim.room, body);
    forall s | s in g.chans ensures ChannelOk(g.chans[s], history + [body], lim.room) {
      OfferKeeps(h.chans[s], history, body, lim.room);
    }
    forall s | s in g.subs ensures Level(g.chans[s], |history| + 1) {
      OfferKeeps(h.chans[s], history, body, lim.room);
    }
  }

  /** A closer is not affected by steps that leave its channels' contents. */
  lemma CloserFrame<T>(c: Closer<T>, h: Hub<T>, g: Hub<T>, history: seq<T>, grown: seq<T>)
    requires CloserOk(c, h, history)
    requires h.chans.Keys <= g.chans.Keys && Owed(c) !! g.subs && (h.closed ==> g.closed)
    requires history <= grown
    requires forall s :: s in Owed(c) ==>
               g.chans[s].start == h.chans[s].start && g.chans[s].sent == h.chans[s].sent
               && g.chans[s].closed == h.chans[s].closed
    ensures CloserOk(c, g, grown)
  {
  }

  lemma PublishKeeps<T>(y: System<T>, body: T, lim: Limits)
    requires Inv(y, lim)
    ensures Inv(Next(y, DoPublish(body), lim), lim)
  {
    if !y.hub.closed {
      var g := Publish(y.hub, lim.capacity, lim.room, body);
      LogGrows(y.hub, y.history, body, lim.capacity);
      PublishChannels(y.hub, y.history, body, lim);
      forall k | k in y.closers ensures CloserOk(y.closers[k], g, y.history + [body]) {
        CloserFrame(y.closers[k], y.hub, g, y.history, y.history + [body]);
      }
    }
  }

  lemma MarkChannels<T>(h: Hub<T>, history: seq<T>, body: T, room: nat)
    requires ChannelsOk(h, history, room)
    ensures ChannelsOk(MarkClosed(h, body), history + [body], room)
    ensures forall s :: s in h.subs ==> Level(h.chans[s], |history|)
  {
    forall s | s in h.chans ensures ChannelOk(h.chans[s], history + [body], room) {
      OfferKeeps(h.chans[s], history, body, room);
    }
    hide ChannelOk;
  }

  lemma MarkKeeps<T>(y: System<T>, k: CloserId, body: T, lim: Limits)
    requires Inv(y, lim) && Enabled(y, MarkClose(k, body))
    ensures Inv(Next(y, MarkClose(k, body), lim), lim)
  {
    hide ChannelsOk, ChannelOk;
    var z := Next(y, MarkClose(k, body), lim);
    LogGrows(y.hub, y.history, body, lim.capacity);
    MarkChannels(y.hub, y.history, body, lim.room);
    forall l | l in z.closers ensures CloserOk(z.closers[l], z.hub, z.history) {
      if l != k { CloserFrame(y.closers[l], y.hub, z.hub, y.history, z.history); }
    }
    forall i, j | i in z.closers && j in z.closers && i != j
      ensures Owed(z.closers[i]) !! Owed(z.closers[j])
    {
      assert CloserOk(y.closers[i], y.hub, y.history) && CloserOk(y.closers[j], y.hub, y.history);
    }
  }

  /** Sending the terminal entry to a subscriber that is level with it. */
  lemma TellLevel<T>(c: Channel<T>, history: seq<T>, e: Entry<T>, room: nat)
    requires ChannelOk(c, history, room)
    requires 0 < e.seqNo <= |history| && e == Entry(e.seqNo, history[e.seqNo - 1]) && Level(c, e.seqNo - 1)
    ensures Depth(c) < room ==> ChannelOk(Send(c, e), history, room)
  {
    var d := Send(c, e);
    forall i | 0 <= i < |d.sent| ensures d.sent[i] == Entry(d.start + i + 1, history[d.start + i]) {
      if i < |c.sent| { assert d.sent[i] == c.sent[i]; }
    }
  }

  lemma TellChannels<T>(h: Hub<T>, history: seq<T>, s: SubId, e: Entry<T>, room: nat)
    requires ChannelsOk(h, history, room) && s in h.chans && s !in h.subs
    requires 0 < e.seqNo <= |history| && e == Entry(e.seqNo, history[e.seqNo - 1]) && Level(h.chans[s], e.seqNo - 1)
    ensures ChannelsOk(OfferLast(h, s, e, room), history, room)
    ensures OfferLast(h, s, e, room).chans[s].closed == h.chans[s].closed
  {
    TellLevel(h.chans[s], history, e, room);
    hide ChannelOk;
  }

  lemma TellKeeps<T>(y: System<T>, k: CloserId, s: SubId, lim: Limits)
    requires Inv(y, lim) && Enabled(y, TellLast(k, s))
    ensures Inv(Next(y, TellLast(k, s), lim), lim)
  {
    hide ChannelsOk, ChannelOk, Retains;
    var z := Next(y, TellLast(k, s), lim);
    assert CloserOk(y.closers[k], y.hub, y.history);
    assert s in Owed(y.closers[k]);
    TellChannels(y.hub, y.history, s, y.closers[k].e, lim.room);
    forall l | l in z.closers ensures CloserOk(z.closers[l], z.hub, z.history) {
      if l != k { CloserFrame(y.closers[l], y.hub, z.hub, y.history, z.history); }
    }
    ApartAfter(y.closers, z.closers, k);
  }

  lemma FinishChannels<T>(h: Hub<T>, history: seq<T>, s: SubId, room: nat)
    requires ChannelsOk(h, history, room) && s in h.chans && s !in h.subs && !h.chans[s].closed
    ensures ChannelsOk(CloseLast(h, s), history, room)
  {
  }

  lemma FinishKeeps<T>(y: System<T>, k: CloserId, lim: Limits)
    requires Inv(y, lim) && Enabled(y, FinishOne(k))
    ensures Inv(Next(y, FinishOne(k), lim), lim)
  {
    hide ChannelsOk, ChannelOk, Retains;
    var z := Next(y, FinishOne(k), lim);
    assert CloserOk(y.closers[k], y.hub, y.history);
    assert y.closers[k].s in Owed(y.closers[k]);
    FinishChannels(y.hub, y.history, y.closers[k].s, lim.room);
    forall l | l in z.closers ensures CloserOk(z.closers[l], z.hub, z.history) {
      if l != k { CloserFrame(y.closers[l], y.hub, z.hub, y.history, z.history); }
    }
    ApartAfter(y.closers, z.closers, k);
  }

  lemma ApartAfter<T>(before: map<CloserId, Closer<T>>, now: map<CloserId, Closer<T>>, k: CloserId)
    requires Apart(before) && k in before && now.Keys == before.Keys
    requires Owed(now[k]) <= Owed(before[k])
    requires forall l :: l in now && l != k ==> now[l] == before[l]
    ensures Apart(now)
  {
  }

  lemma SubscribeKeeps<T>(y: System<T>, s: SubId, lim: Limits)
    requires Inv(y, lim) && s !in y.hub.chans
    ensures Inv(y.(hub := Subscribe(y.hub, s)), lim)
  {
    var g := Subscribe(y.hub, s);
    forall l | l in y.closers ensures CloserOk(y.closers[l], g, y.history) {
      CloserFrame(y.closers[l], y.hub, g, y.history, y.history);
    }
  }

  lemma UnsubscribeKeeps<T>(y: System<T>, s: SubId, lim: Limits)
    requires Inv(y, lim)
    ensures Inv(y.(hub := Unsubscribe(y.hub, s)), lim)
  {
    var g := Unsubscribe(y.hub, s);
    UnsubscribeChannels(y.hub, y.history, s, lim.room);
    assert Wired(y.hub);
    hide ChannelOk, Retains;
    forall l | l in y.closers ensures CloserOk(y.closers[l], g, y.history) {
      CloserFrame(y.closers[l], y.hub, g, y.history, y.history);
    }
  }

  lemma ReceiveChannels<T>(h: Hub<T>, history: seq<T>, s: SubId, room: nat)
    requires ChannelsOk(h, history, room)
    ensures ChannelsOk(Receive(h, s), history, room)
  {
  }

  lemma UnsubscribeChannels<T>(h: Hub<T>, history: seq<T>, s: SubId, room: nat)
    requires ChannelsOk(h, history, room)
    ensures ChannelsOk(Unsubscribe(h, s), history, room)
  {
  }

  lemma ReceiveKeeps<T>(y: System<T>, s: SubId, lim: Limits)
    requires Inv(y, lim)
    ensures Inv(y.(hub := Receive(y.hub, s)), lim)
  {
    var g := Receive(y.hub, s);
    ReceiveChannels(y.hub, y.history, s, lim.room);
    hide ChannelsOk, Retains;
    forall l | l in y.closers ensures CloserOk(y.closers[l], g, y.history) {
      CloserFrame(y.closers[l], y.hub, g, y.history, y.history);
    }
  }

  lemma EnterKeeps<T>(y: System<T>, k: CloserId, lim: Limits)
    requires Inv(y, lim) && Enabled(y, EnterClose(k))
    ensures Inv(Next(y, EnterClose(k), lim), lim)
  {
  }

  lemma StepKeeps<T>(y: System<T>, a: Action<T>, lim: Limits)
    requires Inv(y, lim) && Enabled(y, a)
    ensures Inv(Next(y, a, lim), lim)
  {
    hide Inv;
    match a
    case DoPublish(body) => PublishKeeps(y, body, lim);
    case MarkClose(k, body) => MarkKeeps(y, k, body, lim);
    case TellLast(k, s) => TellKeeps(y, k, s, lim);
    case FinishOne(k) => FinishKeeps(y, k, lim);
    case EnterClose(k) => EnterKeeps(y, k, lim);
    case DoSubscribe(s) => SubscribeKeeps(y, s, lim);
    case DoUnsubscribe(s) => UnsubscribeKeeps(y, s, lim);
    case DoReceive(s) => ReceiveKeeps(y, s, lim);
  }

  // ------------------------------------------------------------- whole runs

  /** A run from the empty hub in which every step was enabled. */
  ghost predicate Legal<T(!new)>(run: seq<Action<T>>, lim: Limits)
    decreases |run|, 0
  {
    run == [] || (Legal(run[..|run| - 1], lim) && Enabled(After(run[..|run| - 1], lim), run[|run| - 1]))
  }

  ghost function After<T(!new)>(run: seq<Action<T>>, lim: Limits): System<T>
    requires Legal(run, lim)
    decreases |run|, 1
  {
    if run == [] then Initial() else Next(After(run[..|run| - 1], lim), run[|run| - 1], lim)
  }

  lemma {:induction false} ReachableInv<T(!new)>(run: seq<Action<T>>, lim: Limits)
    requires Legal(run, lim)
    ensures Inv(After(run, lim), lim)
  {
    if run != [] {
      ReachableInv(run[..|run| - 1], lim);
      StepKeeps(After(run[..|run| - 1], lim), run[|run| - 1], lim);
    }
  }

  /** No run ever sends on a closed channel or closes one twice; each channel
      is sent a contiguous run of the history from where it subscribed, and a
      subscriber still listed has been sent all of it. */
  lemma NoChannelFault<T(!new)>(run: seq<Action<T>>, y: System<T>, lim: Limits, s: SubId)
    requires Legal(run, lim) && y == After(run, lim) && s in y.hub.chans
    ensures y.hub.chans[s].faults == 0
    ensures forall i :: 0 <= i < |y.hub.chans[s].sent| ==> y.hub.chans[s].sent[i].seqNo == y.hub.chans[s].start + i + 1
    ensures forall i :: 0 <= i < |y.hub.chans[s].sent| ==>
              0 < y.hub.chans[s].sent[i].seqNo <= |y.history|
              && y.hub.chans[s].sent[i].body == y.history[y.hub.chans[s].sent[i].seqNo - 1]
    ensures s in y.hub.subs ==> !y.hub.chans[s].closed && y.hub.chans[s].start + |y.hub.chans[s].sent| == |y.history|
  {
    hide LogOk, CloserOk, Apart, Enabled, Next;
    ReachableInv(run, lim);
    assert ChannelOk(y.hub.chans[s], y.history, lim.room);
  }

  /** In every reachable state the log is the end of the history and answers a
      non-zero resume point exactly when nothing after it was evicted. */
  lemma ReachableLog<T(!new)>(run: seq<Action<T>>, y: System<T>, lim: Limits, lastId: nat)
    requires Legal(run, lim) && y == After(run, lim) && lim.capacity > 0 && lastId > 0
    ensures Min(|y.history|, lim.capacity) <= |y.hub.log.buf| <= |y.history|
    ensures !y.hub.closed ==> |y.hub.log.buf| == Min(|y.history|, lim.capacity)
    ensures y.hub.log.buf == Stamped(y.history)[|y.history| - |y.hub.log.buf|..]
    ensures Resume(y.hub.log, lastId) ==
            if lastId > |y.history| || lastId < |y.history| - |y.hub.log.buf| then None
            else Some(Stamped(y.history)[lastId..])
  {
    ReachableInv(run, lim);
    ResumeIsExact(y.hub.log, y.history, |y.hub.log.buf|, lastId);
  }
}
