/** Subscribers of an event log: bounded channels, the fan-out that drops slow
    ones, and closing.

    A channel counts as a fault what makes the runtime panic: a send on a
    closed channel and a second close. */
module EventHub {
  import opened EventLog

  type SubId = nat

  /** `sent` is everything ever put into the channel and `taken` how much of it
      was received; `start` is the log position at subscription. */
  datatype Channel<+T> = Channel(start: nat, sent: seq<Entry<T>>, taken: nat, closed: bool, faults: nat)

  function Depth<T>(c: Channel<T>): int { |c.sent| - c.taken }

  function Send<T>(c: Channel<T>, e: Entry<T>): Channel<T> {
    if c.closed then c.(faults := c.faults + 1) else c.(sent := c.sent + [e])
  }

  function CloseChannel<T>(c: Channel<T>): Channel<T> {
    if c.closed then c.(faults := c.faults + 1) else c.(closed := true)
  }

  /** A send that does not block: it happens if there is room (or panics). */
  predicate Accepts<T>(c: Channel<T>, room: nat) { c.closed || Depth(c) < room }

  /** The publisher's `select`: send, or else drop the subscriber and close. */
  function Offer<T>(c: Channel<T>, e: Entry<T>, room: nat): Channel<T> {
    if Accepts(c, room) then Send(c, e) else CloseChannel(c)
  }

  datatype Hub<T> = Hub(log: Log<T>, subs: set<SubId>, chans: map<SubId, Channel<T>>, closed: bool)

  function EmptyHub<T>(): Hub<T> { Hub(Log(0, []), {}, map[], false) }

  /** The channels after an entry was offered to the subscribers in `subs`. */
  function Offered<T>(chans: map<SubId, Channel<T>>, subs: set<SubId>, e: Entry<T>, room: nat): map<SubId, Channel<T>> {
    map s | s in chans :: if s in subs then Offer(chans[s], e, room) else chans[s]
  }

  function Staying<T>(chans: map<SubId, Channel<T>>, subs: set<SubId>, room: nat): set<SubId>
    requires subs <= chans.Keys
  {
    set s | s in subs && Accepts(chans[s], room)
  }

  predicate Wired<T>(h: Hub<T>) { h.subs <= h.chans.Keys }

  /** The fan-out loop, over the subscribers in any order. */
  method FanOut<T>(subs: set<SubId>, chans: map<SubId, Channel<T>>, e: Entry<T>, room: nat)
    returns (subs': set<SubId>, chans': map<SubId, Channel<T>>)
    requires subs <= chans.Keys
    ensures chans' == Offered(chans, subs, e, room)
    ensures subs' == Staying(chans, subs, room)
  {
    subs', chans' := subs, chans;
    var rest := subs;
    while rest != {}
      invariant rest <= subs && chans'.Keys == chans.Keys
      invariant forall s :: s in chans ==>
                  chans'[s] == if s in subs && s !in rest then Offer(chans[s], e, room) else chans[s]
      invariant forall s :: s in subs' <==> s in subs && (s in rest || Accepts(chans[s], room))
      decreases |rest|
    {
      var s :| s in rest;
      var c := chans'[s];
      if Accepts(c, room) {
        chans' := chans'[s := Send(c, e)];
      } else {
        subs' := subs' - {s};
        chans' := chans'[s := CloseChannel(c)];
      }
      rest := rest - {s};
    }
  }

  function Publish<T>(h: Hub<T>, capacity: nat, room: nat, body: T): Hub<T>
    requires Wired(h)
  {
    if h.closed then h
    else
      var e := Entry(h.log.seqNo + 1, body);
      Hub(Append(h.log, capacity, body), Staying(h.chans, h.subs, room), Offered(h.chans, h.subs, e, room), false)
  }

  function Subscribe<T>(h: Hub<T>, s: SubId): Hub<T> {
    if h.closed then h.(chans := h.chans[s := Channel(h.log.seqNo, [], 0, true, 0)])
    else h.(subs := h.subs + {s}, chans := h.chans[s := Channel(h.log.seqNo, [], 0, false, 0)])
  }

  function Unsubscribe<T>(h: Hub<T>, s: SubId): Hub<T>
    requires Wired(h)
  {
    if s in h.subs then h.(subs := h.subs - {s}, chans := h.chans[s := CloseChannel(h.chans[s])]) else h
  }

  function Receive<T>(h: Hub<T>, s: SubId): Hub<T> {
    if s in h.chans && Depth(h.chans[s]) > 0
    then h.(chans := h.chans[s := h.chans[s].(taken := h.chans[s].taken + 1)])
    else h
  }

  /** Closing under one lock: every subscriber's channel is closed. */
  function CloseAll<T>(h: Hub<T>): Hub<T>
    requires Wired(h)
  {
    if h.closed then h
    else h.(closed := true, subs := {},
            chans := map s | s in h.chans :: if s in h.subs then CloseChannel(h.chans[s]) else h.chans[s])
  }

  /** The locked half of closing a chat: the terminal event is logged and the
      subscribers are taken off the hub, to be told outside the lock. */
  function MarkClosed<T>(h: Hub<T>, body: T): Hub<T> {
    h.(log := AppendTerminal(h.log, body), closed := true, subs := {})
  }

  /** Outside the lock: a send that does not block, and the close after it. */
  function OfferLast<T>(h: Hub<T>, s: SubId, e: Entry<T>, room: nat): Hub<T>
    requires s in h.chans
  {
    if Accepts(h.chans[s], room) then h.(chans := h.chans[s := Send(h.chans[s], e)]) else h
  }

  function CloseLast<T>(h: Hub<T>, s: SubId): Hub<T>
    requires s in h.chans
  {
    h.(chans := h.chans[s := CloseChannel(h.chans[s])])
  }
}
