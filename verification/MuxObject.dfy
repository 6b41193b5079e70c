/** The multiplexer object of one endpoint: its stream map and id counter,
    updated in place. */
module MuxObjects {
  import opened Protocol
  import opened MuxCodec
  import opened Mux

  class MuxObject {
    const role: nat
    var next: StreamId
    var streams: map<StreamId, Stream>
    var live: set<StreamId>
    var queue: seq<StreamId>
    var owed: Option<StreamId>
    var duplicate: bool
    var done: bool
    ghost var ids: seq<StreamId>
    ghost var dialing: set<StreamId>
    ghost var closing: map<StreamId, bool>

    ghost function View(): Endpoint
      reads this
    {
      Endpoint(role, next, ids, streams, live, dialing, closing, queue, owed, duplicate, done)
    }

    constructor (role: nat)
      requires role == 1 || role == 2
      ensures View() == NewEndpoint(role)
    {
      this.role := role;
      next := if role == 1 then 0xFFFF_FFFF else 0;
      streams, live, queue, owed, duplicate, done := map[], {}, [], None, false, false;
      ids, dialing, closing := [], {}, map[];
    }

    /** The first half of a dial: a new id and its stream, before the open
        frame goes out. The counter is 32 bits wide. */
    method Register() returns (id: StreamId)
      requires Enabled(View(), [], DialStart)
      modifies this
      ensures View() == Step(old(View()), [], DialStart).0
      ensures id == next == (old(next) + 2) % WORD && streams == old(streams)[id := NEW_STREAM]
      ensures live == old(live) + {id} && queue == old(queue) && owed == old(owed) && done == old(done)
    {
      id := if next < 0xFFFF_FFFE then next + 2 else next - 0xFFFF_FFFE;
      next := id;
      streams := streams[id := NEW_STREAM];
      live := live + {id};
      ids, dialing := ids + [id], dialing + {id};
    }

    /** One frame of the read loop. */
    method Dispatch(f: Frame)
      requires !done && owed.None? && live <= streams.Keys
      modifies this
      ensures View() == Receive(old(View()), f)
    {
      match f {
        case Open(id) => Accept(id);
        case Data(id, payload) => if id in live { Take(id, payload); }
        case Close(id) => if id in live { PeerCloses(id, false); }
        case Reset(id) => if id in live { PeerCloses(id, true); }
      }
    }

    method Accept(id: StreamId)
      modifies this
      ensures View() == Receive(old(View()), Open(id))
      ensures id in old(live) ==> duplicate && done
      ensures id !in old(live) && |old(live)| < MAX_STREAMS && |old(queue)| < ACCEPT_QUEUE ==>
                && streams == old(streams)[id := NEW_STREAM] && live == old(live) + {id}
                && queue == old(queue) + [id] && owed == old(owed)
      ensures id !in old(live) && (|old(live)| >= MAX_STREAMS || |old(queue)| >= ACCEPT_QUEUE) ==>
                streams == old(streams) && live == old(live) && queue == old(queue) && owed == Some(id)
    {
      if id in live {
        duplicate := true;
        Shutdown();
        return;
      }
      if |live| >= MAX_STREAMS {
        owed := Some(id);
        return;
      }
      if |queue| >= ACCEPT_QUEUE {
        owed := Some(id);
        return;
      }
      streams := streams[id := NEW_STREAM];
      live := live + {id};
      queue := queue + [id];
    }

    method Take(id: StreamId, payload: Bytes)
      requires id in live && id in streams
      modifies this
      ensures View() == Receive(old(View()), Data(id, payload))
      ensures var s, room := old(streams)[id], MAX_BUFFERED - |old(streams)[id].buffer|;
              if s.remoteClosed || s.localClosed then streams == old(streams) && owed == old(owed)
              else if |payload| <= room then
                streams == old(streams)[id := s.(buffer := s.buffer + payload, accepted := s.accepted + payload)]
                && owed == old(owed)
              else streams == old(streams)[id := s.(failed := true, remoteClosed := true)] && owed == Some(id)
    {
      var s := streams[id];
      if s.remoteClosed || s.localClosed { return; }
      if |s.buffer| + |payload| > MAX_BUFFERED {
        streams := streams[id := s.(failed := true, remoteClosed := true)];
        owed := Some(id);
      } else {
        streams := streams[id := s.(buffer := s.buffer + payload, accepted := s.accepted + payload)];
      }
    }

    /** A stream whose local side has closed leaves the map. */
    method PeerCloses(id: StreamId, failed: bool)
      requires id in streams
      modifies this
      ensures View() == RemoteClose(old(View()), id, failed)
      ensures id in streams && streams == old(streams)[id := streams[id]]
      ensures var s, t := old(streams)[id], streams[id];
              t == s.(remoteClosed := true, failed := s.failed || failed, eof := t.eof)
      ensures live == if old(streams)[id].localClosed then old(live) - {id} else old(live)
    {
      var s := streams[id];
      var eof := s.eof || (!failed && !s.remoteClosed && !s.localClosed);
      streams := streams[id := s.(remoteClosed := true, failed := s.failed || failed, eof := eof)];
      if s.localClosed { live := live - {id}; }
    }

    /** Empty the map, then fail every stream that was in it. */
    method Shutdown()
      modifies this
      ensures View() == Stop(old(View()))
      ensures done && live == {} && streams.Keys == old(streams).Keys
      ensures forall id :: id in streams ==>
                streams[id] == if id in old(live) then old(streams)[id].(remoteClosed := true, failed := true)
                               else old(streams)[id]
    {
      var failing := live;
      live := {};
      done := true;
      streams := FailEach(streams, failing);
    }

    static method FailEach(streams: map<StreamId, Stream>, failing: set<StreamId>)
      returns (after: map<StreamId, Stream>)
      ensures after == map id | id in streams ::
                         if id in failing then streams[id].(remoteClosed := true, failed := true) else streams[id]
    {
      after := streams;
      var rest := failing;
      while rest != {}
        invariant rest <= failing && after.Keys == streams.Keys
        invariant forall id :: id in streams && (id !in failing || id in rest) ==> after[id] == streams[id]
        invariant forall id :: id in streams && id in failing && id !in rest ==>
                    after[id] == streams[id].(remoteClosed := true, failed := true)
        decreases |rest|
      {
        var id :| id in rest;
        if id in streams { after := after[id := streams[id].(remoteClosed := true, failed := true)]; }
        rest := rest - {id};
      }
    }

    /** The locked half of closing a stream; the close frame follows. */
    method CloseHalf(id: StreamId) returns (announce: bool)
      requires Enabled(View(), [], CloseLocal(id))
      modifies this
      ensures View() == Step(old(View()), [], CloseLocal(id)).0
      ensures announce == !old(streams)[id].localClosed
      ensures streams == old(streams)[id := old(streams)[id].(localClosed := true)] && live == old(live)
      ensures closing == if announce then old(closing)[id := old(streams)[id].remoteClosed] else old(closing)
    {
      var s := streams[id];
      if s.localClosed { return false; }
      streams := streams[id := s.(localClosed := true)];
      closing := closing[id := s.remoteClosed];
      return true;
    }

    method AcceptOne() returns (id: Option<StreamId>)
      modifies this`queue
      ensures old(queue) == [] ==> id.None? && View() == old(View())
      ensures old(queue) != [] ==> id == Some(old(queue)[0]) && View() == Step(old(View()), [], AcceptNext).0
      ensures old(queue) != [] ==> old(queue) == [id.value] + queue
    {
      if queue == [] { return None; }
      id := Some(queue[0]);
      queue := queue[1..];
    }
  }
}
