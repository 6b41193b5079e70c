/** The dashboard's event hub and one plugin's event stream. They share their
    limits and their rules; every operation, closing included, is one lock
    section. They differ in the answer to a first connection. */
module EventStreams {
  import opened Common
  import opened Protocol
  import opened EventLog
  import opened EventHub
  import Fanout

  const CAPACITY := 256
  const ROOM := 64

  /** The log is the last 256 events ever published; the channels carry
      contiguous runs of them, none has faulted, and the open ones are those on
      the list. */
  ghost predicate StreamOk<T>(h: Hub<T>, history: seq<T>) {
    && Retains(h.log, history, Min(|history|, CAPACITY))
    && Fanout.ChannelsOk(h, history, ROOM)
    && OpenListed(h)
  }

  ghost predicate OpenListed<T>(h: Hub<T>) {
    forall s :: s in h.chans ==> (s in h.subs <==> !h.chans[s].closed)
  }

  lemma PublishOk<T>(h: Hub<T>, history: seq<T>, ev: T)
    requires StreamOk(h, history) && !h.closed
    ensures StreamOk(EventHub.Publish(h, CAPACITY, ROOM, ev), history + [ev])
  {
    var n := |history|;
    assert Min(Min(n, CAPACITY) + 1, CAPACITY) == Min(|history + [ev]|, CAPACITY);
    AppendRetains(h.log, history, Min(|history|, CAPACITY), CAPACITY, ev);
    Fanout.PublishChannels(h, history, ev, Fanout.Limits(CAPACITY, ROOM));
  }

  lemma SubscribeOk<T>(h: Hub<T>, history: seq<T>, s: SubId)
    requires StreamOk(h, history) && s !in h.chans
    ensures StreamOk(EventHub.Subscribe(h, s), history)
  {
  }

  lemma StreamIsWired<T>(h: Hub<T>, history: seq<T>)
    requires StreamOk(h, history)
    ensures Wired(h)
  {
  }

  /** The resume rule in terms of the history. */
  lemma ResumeOk<T>(h: Hub<T>, history: seq<T>, lastId: nat)
    requires StreamOk(h, history) && lastId > 0
    ensures Resume(h.log, lastId) ==
            if |history| - Min(|history|, CAPACITY) <= lastId <= |history|
            then Some(Stamped(history)[lastId..]) else None
  {
    ResumeIsExact(h.log, history, Min(|history|, CAPACITY), lastId);
  }

  lemma CloseOk<T>(h: Hub<T>, history: seq<T>)
    requires StreamOk(h, history)
    ensures StreamOk(CloseAll(h), history)
  {
    hide Retains;
  }

  class EventStream<T> {
    /** A plugin accepts a first connection, with nothing to replay; the
        dashboard sends it a snapshot. */
    const acceptsFresh: bool
    var seqNo: nat
    var buf: seq<Entry<T>>
    var subs: set<SubId>
    var chans: map<SubId, Channel<T>>
    var closed: bool
    ghost var history: seq<T>

    ghost function View(): Hub<T>
      reads this
    {
      Hub(Log(seqNo, buf), subs, chans, closed)
    }

    ghost predicate Valid()
      reads this
    {
      StreamOk(View(), history)
    }

    constructor (acceptsFresh: bool)
      ensures Valid() && View() == EmptyHub() && history == [] && this.acceptsFresh == acceptsFresh
    {
      this.acceptsFresh := acceptsFresh;
      seqNo, buf, subs, chans, closed := 0, [], {}, map[], false;
      history := [];
    }

    method Publish(ev: T)
      requires Valid()
      modifies this
      ensures Valid()
      ensures View() == EventHub.Publish(old(View()), CAPACITY, ROOM, ev)
      ensures history == if old(closed) then old(history) else old(history) + [ev]
    {
      hide StreamOk;
      if closed { return; }
      StreamIsWired(View(), history);
      PublishOk(View(), history, ev);
      history := history + [ev];
      var e := LogLocked(ev);
      subs, chans := FanOut(subs, chans, e, ROOM);
    }

    method LogLocked(ev: T) returns (e: Entry<T>)
      modifies this`seqNo, this`buf
      ensures Log(seqNo, buf) == Append(old(Log(seqNo, buf)), CAPACITY, ev)
      ensures e == Entry(old(seqNo) + 1, ev)
    {
      seqNo := seqNo + 1;
      e := Entry(seqNo, ev);
      buf := buf + [e];
      if |buf| > CAPACITY {
        buf := buf[|buf| - CAPACITY..];
      }
    }

    /** A resume point is honoured exactly when nothing after it was evicted;
        the replay is then exactly what came after it. */
    method Subscribe(s: SubId, lastId: nat) returns (replay: seq<Entry<T>>, resumed: bool)
      requires Valid() && s !in chans
      modifies this`subs, this`chans
      ensures Valid()
      ensures View() == EventHub.Subscribe(old(View()), s)
      ensures resumed <==> !closed && if lastId == 0 then acceptsFresh
                                      else |history| - Min(|history|, CAPACITY) <= lastId <= |history|
      ensures replay == if resumed && lastId > 0 then Stamped(history)[lastId..] else []
    {
      hide StreamOk, Stamped;
      SubscribeOk(View(), history, s);
      if lastId > 0 { ResumeOk(View(), history, lastId); }
      if closed {
        chans := chans[s := Channel(seqNo, [], 0, true, 0)];
        return [], false;
      }
      subs, chans := subs + {s}, chans[s := Channel(seqNo, [], 0, false, 0)];
      if lastId == 0 { return [], acceptsFresh; }
      if |buf| == 0 || buf[0].seqNo > lastId + 1 || lastId > seqNo { return [], false; }
      replay := CollectNewer(buf, lastId);
      resumed := true;
    }

    method Unsubscribe(s: SubId)
      requires Valid()
      modifies this`subs, this`chans
      ensures Valid() && View() == EventHub.Unsubscribe(old(View()), s)
    {
      hide Retains, Fanout.ChannelOk;
      Fanout.UnsubscribeChannels(View(), history, s, ROOM);
      if s in subs {
        subs := subs - {s};
        chans := chans[s := CloseChannel(chans[s])];
      }
    }

    method Close()
      requires Valid()
      modifies this`closed, this`subs, this`chans
      ensures Valid() && View() == CloseAll(old(View()))
      ensures closed && subs == {} && chans.Keys == old(chans).Keys && Log(seqNo, buf) == old(Log(seqNo, buf))
      ensures forall s :: s in chans ==> chans[s] == old(chans)[s].(closed := true)
    {
      CloseOk(View(), history);
      if closed { return; }
      closed := true;
      chans := CloseEach(subs, chans);
      subs := {};
    }
  }

  /** The closing loop, over the subscribers in any order. */
  method CloseEach<T>(subs: set<SubId>, chans: map<SubId, Channel<T>>) returns (ended: map<SubId, Channel<T>>)
    requires subs <= chans.Keys
    ensures ended == map s | s in chans :: if s in subs then CloseChannel(chans[s]) else chans[s]
  {
    ended := chans;
    var rest := subs;
    while rest != {}
      invariant rest <= subs && ended.Keys == chans.Keys
      invariant forall s :: s in chans ==>
                  ended[s] == if s in subs && s !in rest then CloseChannel(chans[s]) else chans[s]
      decreases |rest|
    {
      var s :| s in rest;
      ended := ended[s := CloseChannel(ended[s])];
      rest := rest - {s};
    }
  }
}
