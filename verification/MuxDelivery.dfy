/** Nothing the two endpoints set out to say is lost: open and close frames
    arrive or are answered, and every byte that was written gets through while
    its receiver accepts. */
module MuxDelivery {
  import opened Protocol
  import opened MuxCodec
  import opened Mux

  // ------------------------------------------------------- what is not lost

  predicate ClosedAt(x: Endpoint, id: StreamId) { id in x.streams && x.streams[id].remoteClosed }

  predicate FailedAt(x: Endpoint, id: StreamId) { ClosedAt(x, id) && x.streams[id].failed }

  /** An opened stream: its open frame is under way, or the peer has it, or the
      peer refused it and says so. */
  ghost predicate OpenKept(x: Endpoint, p: seq<Frame>, y: Endpoint, q: seq<Frame>, id: StreamId) {
    || Open(id) in p
    || id in y.streams
    || y.owed == Some(id)
    || Reset(id) in q
    || FailedAt(x, id)
  }

  /** A close that was written: its frame is under way, or the peer's stream is
      remotely closed, or the peer has none and will have none. */
  ghost predicate CloseKept(p: seq<Frame>, y: Endpoint, id: StreamId) {
    HasClose(p, id) || (Open(id) !in p && (id in y.streams ==> ClosedAt(y, id)))
  }

  ghost predicate Kept(x: Endpoint, p: seq<Frame>, y: Endpoint, q: seq<Frame>) {
    && (forall id :: id in x.ids && id !in x.dialing ==> OpenKept(x, p, y, q, id))
    && (forall id :: Sealed(x, id).Some? ==> CloseKept(p, y, id))
    && (forall id :: id in x.ids && ClosedAt(x, id) && !FailedAt(x, id) ==> id in y.streams)
  }

  /** The sender has moved, and its direction is still complete. */
  lemma SenderKept(x: Endpoint, z: Endpoint, p: seq<Frame>, p': seq<Frame>, y: Endpoint,
                   q: seq<Frame>, q': seq<Frame>)
    requires Kept(x, p, y, q)
    requires z.ids == x.ids && z.dialing == x.dialing
    requires forall id :: Sealed(z, id) == Sealed(x, id)
    requires forall id :: Open(id) in p <==> Open(id) in p'
    requires forall id :: HasClose(p, id) ==> HasClose(p', id)
    requires forall id :: FailedAt(x, id) ==> FailedAt(z, id)
    requires forall id :: ClosedAt(z, id) && !FailedAt(z, id) ==>
               (ClosedAt(x, id) && !FailedAt(x, id)) || id in y.streams
    requires forall id :: id in x.ids && Reset(id) in q ==> Reset(id) in q' || FailedAt(z, id) || id in y.streams
    ensures Kept(z, p', y, q')
  {
    hide HasClose, Sealed, ClosedAt, FailedAt;
  }

  /** The receiver has moved. */
  lemma ReceiverKept(y: Endpoint, q: seq<Frame>, q': seq<Frame>, x: Endpoint, z: Endpoint,
                     p: seq<Frame>, p': seq<Frame>)
    requires Kept(y, q, x, p)
    requires forall id :: id in x.streams ==> id in z.streams
    requires forall id :: ClosedAt(x, id) ==> ClosedAt(z, id)
    requires forall id :: Open(id) in q' ==> Open(id) in q
    requires forall id :: Open(id) in q ==> Open(id) in q' || id in z.streams || z.owed == Some(id)
    requires forall id :: HasClose(q, id) ==>
               HasClose(q', id) || (Open(id) !in q' && (id in z.streams ==> ClosedAt(z, id)))
    requires forall id :: id in z.streams && id !in x.streams ==> Sealed(y, id).None? || HasClose(q', id)
    requires forall id :: x.owed == Some(id) ==> z.owed == Some(id) || Reset(id) in p'
    requires forall id :: Reset(id) in p ==> Reset(id) in p'
    ensures Kept(y, q', z, p')
  {
    hide HasClose, Sealed, FailedAt;
  }

  lemma Adding(p: seq<Frame>, f: Frame)
    ensures forall g :: g in p + [f] <==> g in p || g == f
    ensures forall id :: HasClose(p, id) ==> HasClose(p + [f], id)
    ensures forall id :: f == Close(id) ==> HasClose(p + [f], id)
  {
    forall id: StreamId ensures HasClose(p + [f], id) == (HasClose(p, id) || f == Close(id)) { PipeGrows(p, f, id); }
  }

  lemma DialStartKept(x: Endpoint, p: seq<Frame>, y: Endpoint, q: seq<Frame>)
    requires Pair(x, p, y, q) && Kept(x, p, y, q) && Kept(y, q, x, p) && Enabled(x, q, DialStart)
    ensures var z := Step(x, q, DialStart).0; Kept(z, p, y, q) && Kept(y, q, z, p)
  {
    hide Names, Flow, Opens, Seals, StreamOk, IdsOk, MapOk, HasClose;
    var id: StreamId := (x.next + 2) % WORD;
    PairFacts(x, p, y, q);
    NewIdIsFresh(x, y);
    var z := Step(x, q, DialStart).0;
    assert Sealed(y, id) == None && Sealed(z, id) == None && Sealed(x, id) == None;
    ReceiverKept(y, q, q, x, z, p, p);
  }

  lemma DialOpenKept(x: Endpoint, p: seq<Frame>, y: Endpoint, q: seq<Frame>, id: StreamId)
    requires Pair(x, p, y, q) && Kept(x, p, y, q) && Kept(y, q, x, p) && Enabled(x, q, DialOpen(id))
    ensures var (z, out) := Step(x, q, DialOpen(id)); Kept(z, p + out, y, q) && Kept(y, q, z, p + out)
  {
    hide Names, Flow, Opens, Seals, HasClose;
    Adding(p, Open(id));
    assert Sealed(x, id) == None by { StreamOf(x, id); }
    hide Pair;
    var z, p' := x.(dialing := x.dialing - {id}), p + [Open(id)];
    forall j | Sealed(z, j).Some? ensures CloseKept(p', y, j) {
      assert Sealed(x, j).Some? && j != id && CloseKept(p, y, j);
    }
    forall j | j in z.ids && j !in z.dialing ensures OpenKept(z, p', y, q, j) {
      if j != id { assert OpenKept(x, p, y, q, j) && FailedAt(z, j) == FailedAt(x, j); }
    }
    ReceiverKept(y, q, q, x, z, p, p');
  }

  lemma CloseWriteKept(x: Endpoint, p: seq<Frame>, y: Endpoint, q: seq<Frame>, id: StreamId)
    requires Kept(x, p, y, q) && Kept(y, q, x, p) && Enabled(x, q, CloseWrite(id))
    ensures var (z, out) := Step(x, q, CloseWrite(id)); Kept(z, p + out, y, q) && Kept(y, q, z, p + out)
  {
    hide HasClose;
    Adding(p, Close(id));
    var z, p' := Step(x, q, CloseWrite(id)).0, p + [Close(id)];
    forall j | Sealed(z, j).Some? ensures CloseKept(p', y, j) {
      if j != id { assert Sealed(x, j).Some? && CloseKept(p, y, j); }
    }
    forall j | j in z.ids && j !in z.dialing ensures OpenKept(z, p', y, q, j) {
      assert OpenKept(x, p, y, q, j) && FailedAt(z, j) == FailedAt(x, j);
    }
    ReceiverKept(y, q, q, x, z, p, p');
  }

  lemma ReplyKept(x: Endpoint, p: seq<Frame>, y: Endpoint, q: seq<Frame>)
    requires Kept(x, p, y, q) && Kept(y, q, x, p) && Enabled(x, q, Reply)
    ensures var (z, out) := Step(x, q, Reply); Kept(z, p + out, y, q) && Kept(y, q, z, p + out)
  {
    hide HasClose;
    Adding(p, Reset(x.owed.value));
    var z := Step(x, q, Reply).0;
    SenderKept(x, z, p, p + [Reset(x.owed.value)], y, q, q);
    ReceiverKept(y, q, q, x, z, p, p + [Reset(x.owed.value)]);
  }

  /** A move of the streams' contents or of flags that only get set. */
  lemma LocalKept(x: Endpoint, z: Endpoint, p: seq<Frame>, p': seq<Frame>, y: Endpoint, q: seq<Frame>)
    requires Kept(x, p, y, q) && Kept(y, q, x, p)
    requires z.ids == x.ids && z.dialing == x.dialing && z.owed == x.owed && z.streams.Keys == x.streams.Keys
    requires forall id :: Sealed(z, id) == Sealed(x, id)
    requires forall id :: FailedAt(x, id) ==> FailedAt(z, id)
    requires forall id :: ClosedAt(x, id) ==> ClosedAt(z, id)
    requires forall id :: ClosedAt(z, id) && !FailedAt(z, id) ==> ClosedAt(x, id) && !FailedAt(x, id)
    requires forall g: Frame :: (g.Open? ==> (g in p' <==> g in p)) && (g in p ==> g in p')
    requires forall id :: HasClose(p, id) ==> HasClose(p', id)
    ensures Kept(z, p', y, q) && Kept(y, q, z, p')
  {
    hide HasClose, Sealed, ClosedAt, FailedAt;
    SenderKept(x, z, p, p', y, q, q);
    ReceiverKept(y, q, q, x, z, p, p');
  }

  lemma QuietMoveKept(x: Endpoint, p: seq<Frame>, y: Endpoint, q: seq<Frame>, m: Move)
    requires Kept(x, p, y, q) && Kept(y, q, x, p) && Enabled(x, q, m)
    requires m.WriteChunk? || m.CloseLocal? || m.AcceptNext? || m.Read? || m.Shutdown?
    ensures var (z, out) := Step(x, q, m); Kept(z, p + out, y, q) && Kept(y, q, z, p + out)
  {
    hide HasClose, Kept;
    var (z, out) := Step(x, q, m);
    if m.WriteChunk? { Adding(p, Data(m.id, m.chunk)); } else { assert p + out == p; }
    LocalKept(x, z, p, p + out, y, q);
  }

  // ------------------------------------------------------------- deliveries

  /** What a frame does to the flags and streams of a live endpoint. */
  ghost predicate Effects(x: Endpoint, f: Frame, z: Endpoint) {
    && z.ids == x.ids && z.dialing == x.dialing
    && (forall id :: id in x.streams ==> id in z.streams)
    && (forall id :: id in z.streams ==> id in x.streams || f == Open(id))
    && (forall id :: ClosedAt(x, id) ==> ClosedAt(z, id))
    && (forall id :: FailedAt(x, id) ==> FailedAt(z, id))
    && (forall id :: ClosedAt(z, id) && !FailedAt(z, id) ==>
          (ClosedAt(x, id) && !FailedAt(x, id)) || f == Close(id))
    && (f.Open? ==> f.id in z.streams || z.owed == Some(f.id))
    && (f.Close? && f.id in x.streams ==> ClosedAt(z, f.id))
    && (f.Reset? && f.id in x.streams ==> FailedAt(z, f.id) || (ClosedAt(x, f.id) && !FailedAt(x, f.id)))
  }

  lemma OpenEffects(x: Endpoint, id: StreamId)
    requires id !in x.live && id !in x.streams
    ensures Effects(x, Open(id), Receive(x, Open(id)))
  {
    hide Receive;
    OpenOutcome(x, id);
  }

  lemma DataEffects(x: Endpoint, id: StreamId, payload: Bytes)
    ensures Effects(x, Data(id, payload), Receive(x, Data(id, payload)))
  {
    hide Receive;
    DataOutcome(x, id, payload);
  }

  lemma CloseEffects(x: Endpoint, f: Frame)
    requires MapOk(x) && !x.done && (f.Close? || f.Reset?)
    ensures Effects(x, f, Receive(x, f))
  {
    LiveOrClosed(x, f.id);
    hide MapOk;
    if f.id in x.live && f.id in x.streams {
      hide Receive, Stop;
      ReceivesClose(x, f);
      RemoteCloseEffects(x, f, f.Reset?);
    }
  }

  lemma ReceivesClose(x: Endpoint, f: Frame)
    requires (f.Close? || f.Reset?) && f.id in x.live && f.id in x.streams
    ensures Receive(x, f) == RemoteClose(x, f.id, f.Reset?)
  {
    hide Stop;
  }

  lemma RemoteCloseEffects(x: Endpoint, f: Frame, failed: bool)
    requires f.id in x.streams && (if failed then f.Reset? else f.Close?)
    ensures Effects(x, f, RemoteClose(x, f.id, failed))
  {
  }

  lemma LiveOrClosed(x: Endpoint, id: StreamId)
    requires MapOk(x) && !x.done
    ensures id in x.streams ==> id in x.live || ClosedAt(x, id)
  {
  }

  lemma FrameFacts(x: Endpoint, f: Frame)
    requires EndOk(x) && !x.done && x.owed.None? && (f.Open? ==> f.id !in x.streams)
    ensures Effects(x, f, Receive(x, f))
  {
    hide IdsOk, StreamsOk, MapOk, Effects, Receive;
    LiveIsKnown(x);
    match f
    case Open(id) => OpenEffects(x, id);
    case Data(id, payload) => DataEffects(x, id, payload);
    case _ => CloseEffects(x, f);
  }

  lemma Tail(q: seq<Frame>)
    requires q != []
    ensures forall f :: f in q <==> f == q[0] || f in q[1..]
    ensures forall id :: HasClose(q, id) <==> q[0] == Close(id) || HasClose(q[1..], id)
  {
    assert q == [q[0]] + q[1..];
  }

  /** Frames of a stream come after its open frame, which comes once. */
  lemma OpenIsFirst(s: Endpoint, q: seq<Frame>, r: Endpoint)
    requires Opens(s, q, r) && q != []
    ensures Open(q[0].id) !in q[1..]
  {
    forall j | 0 <= j < |q[1..]| ensures q[1..][j] != Open(q[0].id) {
      assert q[1..][j] == q[j + 1];
    }
  }

  lemma NamesHead(x: Endpoint, q: seq<Frame>, y: Endpoint)
    requires Names(y, q, x) && q != []
    ensures q[0].id in y.streams || q[0].Reset?
  {
  }

  lemma OwnIds(x: Endpoint)
    requires IdsOk(x)
    ensures forall id :: id in x.ids ==> id in x.streams
  {
  }

  lemma DeliverKept(x: Endpoint, p: seq<Frame>, y: Endpoint, q: seq<Frame>)
    requires Pair(x, p, y, q) && Kept(x, p, y, q) && Kept(y, q, x, p) && Enabled(x, q, Deliver)
    ensures var z := Receive(x, q[0]); Kept(z, p, y, q[1..]) && Kept(y, q[1..], z, p)
  {
    OpenHead(y, q, x);
    OpenIsFirst(y, q, x);
    NamesHead(x, q, y);
    OwnIds(x);
    FrameFacts(x, q[0]);
    ReceiveSends(x, q[0]);
    hide Pair, Kept, HasClose, Receive, Effects, Sealed;
    DeliverSends(x, Receive(x, q[0]), p, y, q);
    DeliverHears(x, Receive(x, q[0]), p, y, q);
  }

  lemma DeliverSends(x: Endpoint, z: Endpoint, p: seq<Frame>, y: Endpoint, q: seq<Frame>)
    requires Kept(x, p, y, q) && q != [] && Effects(x, q[0], z)
    requires forall id :: Sealed(z, id) == Sealed(x, id)
    requires forall id :: id in x.ids ==> id in x.streams
    requires q[0].id in y.streams || q[0].Reset?
    ensures Kept(z, p, y, q[1..])
  {
    hide HasClose, Sealed, ClosedAt, FailedAt;
    Tail(q);
    SenderKept(x, z, p, p, y, q, q[1..]);
  }

  lemma DeliverHears(x: Endpoint, z: Endpoint, p: seq<Frame>, y: Endpoint, q: seq<Frame>)
    requires Kept(y, q, x, p) && q != [] && Effects(x, q[0], z) && x.owed.None?
    requires Open(q[0].id) !in q[1..]
    ensures Kept(y, q[1..], z, p)
  {
    hide HasClose, Sealed, ClosedAt, FailedAt;
    Tail(q);
    ClosesHeard(x, y, q, p, z);
    ReceiverKept(y, q, q[1..], x, z, p, p);
  }

  /** The closes under way to a receiver, before and after it takes a frame. */
  lemma ClosesHeard(x: Endpoint, y: Endpoint, q: seq<Frame>, p: seq<Frame>, z: Endpoint)
    requires Kept(y, q, x, p) && q != [] && Open(q[0].id) !in q[1..]
    requires forall id :: HasClose(q, id) <==> q[0] == Close(id) || HasClose(q[1..], id)
    requires forall f :: f in q <==> f == q[0] || f in q[1..]
    requires forall id :: id in z.streams ==> id in x.streams || q[0] == Open(id)
    requires q[0].Close? && q[0].id in x.streams ==> ClosedAt(z, q[0].id)
    ensures forall id :: HasClose(q, id) ==>
              HasClose(q[1..], id) || (Open(id) !in q[1..] && (id in z.streams ==> ClosedAt(z, id)))
    ensures forall id :: id in z.streams && id !in x.streams ==> Sealed(y, id).None? || HasClose(q[1..], id)
  {
    hide HasClose, Sealed, ClosedAt, FailedAt;
    forall id | id in z.streams && id !in x.streams ensures Sealed(y, id).None? || HasClose(q[1..], id) {
      if Sealed(y, id).Some? { assert CloseKept(q, x, id) && Open(id) in q; }
    }
  }

  lemma MoveKept(x: Endpoint, p: seq<Frame>, y: Endpoint, q: seq<Frame>, m: Move)
    requires Pair(x, p, y, q) && Kept(x, p, y, q) && Kept(y, q, x, p) && Enabled(x, q, m)
    ensures var (z, out) := Step(x, q, m); Kept(z, p + out, y, Rest(q, m)) && Kept(y, Rest(q, m), z, p + out)
  {
    hide Pair, Kept;
    assert p + [] == p;
    match m
    case DialStart => DialStartKept(x, p, y, q);
    case DialOpen(id) => DialOpenKept(x, p, y, q, id);
    case CloseWrite(id) => CloseWriteKept(x, p, y, q, id);
    case Deliver => DeliverKept(x, p, y, q);
    case Reply => ReplyKept(x, p, y, q);
    case _ => QuietMoveKept(x, p, y, q, m);
  }

  ghost predicate LinkKept(l: Link) {
    Kept(l.host, l.down, l.runner, l.up) && Kept(l.runner, l.up, l.host, l.down)
  }

  lemma TakeKept(l: Link, t: Turn)
    requires LinkOk(l) && LinkKept(l) && CanTurn(l, t)
    ensures LinkKept(Take(l, t))
  {
    hide Pair, Kept, Step, Enabled;
    if t.byHost {
      MoveKept(l.host, l.down, l.runner, l.up, t.m);
    } else {
      PairSwaps(l.host, l.down, l.runner, l.up);
      MoveKept(l.runner, l.up, l.host, l.down, t.m);
    }
  }

  lemma {:induction false} ReachableKept(run: seq<Turn>)
    requires Legal(run)
    ensures LinkKept(After(run))
  {
    if run != [] {
      hide LinkOk, LinkKept, CanTurn, Take;
      ReachableKept(run[..|run| - 1]);
      ReachableOk(run[..|run| - 1]);
      TakeKept(After(run[..|run| - 1]), run[|run| - 1]);
    }
  }

  /** In every reachable state and in either direction. An opened stream: its
      open frame is under way, the peer has it, or the peer refused it, and then
      the refusal is owed, under way, or has failed the stream here. A close that
      was written is under way or has arrived, where the peer has the stream. */
  lemma NothingIsLost(run: seq<Turn>, host: bool, id: StreamId)
    requires Legal(run)
    ensures var x, y := Mux.End(After(run), host), Mux.End(After(run), !host);
            var p, q := Pipe(After(run), host), Pipe(After(run), !host);
            && (id in x.ids && id !in x.dialing ==>
                  Open(id) in p || id in y.streams || y.owed == Some(id) || Reset(id) in q || FailedAt(x, id))
            && (Sealed(x, id).Some? ==> HasClose(p, id) || (Open(id) !in p && (id in y.streams ==> ClosedAt(y, id))))
  {
    ReachableKept(run);
    hide Legal, After, HasClose, Sealed;
  }

  // ------------------------------------------------- what the runs have done

  /** The chunks that one end wrote on a stream, joined. */
  function WrittenBy(run: seq<Turn>, host: bool, id: StreamId): Bytes {
    if run == [] then []
    else
      var t := run[|run| - 1];
      WrittenBy(run[..|run| - 1], host, id)
      + if t.byHost == host && t.m.WriteChunk? && t.m.id == id then t.m.chunk else []
  }

  /** How many bytes were asked for by one end's reads of a stream. */
  function ReadBy(run: seq<Turn>, host: bool, id: StreamId): nat {
    if run == [] then 0
    else
      var t := run[|run| - 1];
      ReadBy(run[..|run| - 1], host, id) + if t.byHost == host && t.m.Read? && t.m.id == id then t.m.n else 0
  }

  function Dials(run: seq<Turn>, host: bool): nat {
    if run == [] then 0
    else Dials(run[..|run| - 1], host) + if run[|run| - 1] == Turn(host, DialStart) then 1 else 0
  }

  predicate LocallyClosed(x: Endpoint, id: StreamId) { id in x.streams && x.streams[id].localClosed }

  function ReadOf(x: Endpoint, id: StreamId): Bytes { if id in x.streams then x.streams[id].read else [] }

  /** What an endpoint remembers of one stream and of its dials. */
  datatype Memory = Memory(
    written: Bytes, read: nat, closed: bool, sealed: bool, announced: bool, dials: nat, done: bool)

  function Remembers(x: Endpoint, id: StreamId): Memory {
    Memory(Written(x, id), |ReadOf(x, id)|, LocallyClosed(x, id), Sealed(x, id).Some?,
           id in x.ids && id !in x.dialing, |x.ids|, x.done)
  }

  function Happened(run: seq<Turn>, host: bool, id: StreamId): Memory {
    Memory(WrittenBy(run, host, id), ReadBy(run, host, id), Turn(host, CloseLocal(id)) in run,
           Turn(host, CloseWrite(id)) in run, Turn(host, DialOpen(id)) in run, Dials(run, host),
           Turn(host, Shutdown) in run)
  }

  /** One move as it is remembered. */
  function Noted(r: Memory, m: Move, id: StreamId): Memory {
    r.(written := r.written + (if m.WriteChunk? && m.id == id then m.chunk else []),
       read := r.read + (if m.Read? && m.id == id then m.n else 0),
       closed := r.closed || m == CloseLocal(id),
       sealed := r.sealed || m == CloseWrite(id),
       announced := r.announced || m == DialOpen(id),
       dials := r.dials + (if m == DialStart then 1 else 0),
       done := r.done || m == Shutdown)
  }

  /** A stream is new, or rewritten without what is remembered of it. */
  lemma PutNoted(x: Endpoint, z: Endpoint, j: StreamId, t: Stream, id: StreamId)
    requires z.streams == x.streams[j := t] && z.ids == x.ids && z.dialing == x.dialing && z.done == x.done
    requires var s := if j in x.streams then x.streams[j] else NEW_STREAM;
             t.written == s.written && t.read == s.read && t.localClosed == s.localClosed && t.sealed == s.sealed
    ensures Remembers(z, id) == Remembers(x, id)
  {
  }

  lemma DialNoted(x: Endpoint, p: seq<Frame>, y: Endpoint, q: seq<Frame>, id: StreamId)
    requires Pair(x, p, y, q) && Enabled(x, q, DialStart)
    ensures Remembers(Step(x, q, DialStart).0, id) == Noted(Remembers(x, id), DialStart, id)
  {
    hide Names, Flow, Opens, Seals, MapOk, StreamsOk;
    assert Written(x, id) + [] == Written(x, id);
    PairFacts(x, p, y, q);
    NewIdIsFresh(x, y);
    hide Pair, IdsOk;
  }

  lemma OpenNoted(x: Endpoint, j: StreamId, id: StreamId)
    requires IdsOk(x) && j in x.dialing
    ensures Remembers(x.(dialing := x.dialing - {j}), id) == Noted(Remembers(x, id), DialOpen(j), id)
  {
    assert Written(x, id) + [] == Written(x, id) && j in x.ids;
    hide IdsOk;
  }

  lemma MoveNoted(x: Endpoint, p: seq<Frame>, y: Endpoint, q: seq<Frame>, m: Move, id: StreamId)
    requires Pair(x, p, y, q) && Enabled(x, q, m)
    ensures Remembers(Step(x, q, m).0, id) == Noted(Remembers(x, id), m, id)
  {
    hide Names, Flow, Opens, Seals, MapOk, StreamsOk, IdsOk;
    assert Written(x, id) + [] == Written(x, id);
    match m
    case DialStart => DialNoted(x, p, y, q, id);
    case DialOpen(j) => OpenNoted(x, j, id);
    case Deliver => FrameNoted(x, p, y, q, id);
    case Shutdown => StopNoted(x, id);
    case _ => OtherNoted(x, q, m, id);
  }

  lemma OtherNoted(x: Endpoint, q: seq<Frame>, m: Move, id: StreamId)
    requires Enabled(x, q, m) && !m.DialStart? && !m.DialOpen? && !m.Deliver? && !m.Shutdown?
    ensures Remembers(Step(x, q, m).0, id) == Noted(Remembers(x, id), m, id)
  {
    hide Remembers, Noted, Receive, Stop;
    if m.Reply? || m.AcceptNext? { NothingNoted(x, m, id); }
    match m
    case WriteChunk(j, chunk) => StreamNoted(x, q, m, j, id);
    case CloseLocal(j) => StreamNoted(x, q, m, j, id);
    case CloseWrite(j) => StreamNoted(x, q, m, j, id);
    case Read(j, n) => StreamNoted(x, q, m, j, id);
    case Reply => SameNoted(x, x.(owed := None), id);
    case AcceptNext => SameNoted(x, x.(queue := x.queue[1..]), id);
  }

  lemma NothingNoted(x: Endpoint, m: Move, id: StreamId)
    requires m.Reply? || m.AcceptNext?
    ensures Noted(Remembers(x, id), m, id) == Remembers(x, id)
  {
    assert Written(x, id) + [] == Written(x, id);
  }

  lemma SameNoted(x: Endpoint, z: Endpoint, id: StreamId)
    requires z.streams == x.streams && z.ids == x.ids && z.dialing == x.dialing && z.done == x.done
    ensures Remembers(z, id) == Remembers(x, id)
  {
  }

  /** A stream is rewritten, and what is remembered of it changes as noted. */
  lemma StreamNoted(x: Endpoint, q: seq<Frame>, m: Move, j: StreamId, id: StreamId)
    requires Enabled(x, q, m) && (m.WriteChunk? || m.CloseLocal? || m.CloseWrite? || m.Read?) && m.id == j
    ensures Remembers(Step(x, q, m).0, id) == Noted(Remembers(x, id), m, id)
  {
    hide Remembers, Noted, Step;
    match m
    case WriteChunk(_, chunk) => WriteNoted(x, q, j, chunk, id);
    case CloseLocal(_) => CloseLocalNoted(x, q, j, id);
    case CloseWrite(_) => CloseWriteNoted(x, q, j, id);
    case Read(_, n) => ReadNoted(x, q, j, n, id);
  }

  lemma WriteNoted(x: Endpoint, q: seq<Frame>, j: StreamId, chunk: Bytes, id: StreamId)
    requires Enabled(x, q, WriteChunk(j, chunk))
    ensures Remembers(Step(x, q, WriteChunk(j, chunk)).0, id) == Noted(Remembers(x, id), WriteChunk(j, chunk), id)
  {
    assert Written(x, id) + [] == Written(x, id);
  }

  lemma CloseLocalNoted(x: Endpoint, q: seq<Frame>, j: StreamId, id: StreamId)
    requires Enabled(x, q, CloseLocal(j))
    ensures Remembers(Step(x, q, CloseLocal(j)).0, id) == Noted(Remembers(x, id), CloseLocal(j), id)
  {
    assert Written(x, id) + [] == Written(x, id);
  }

  lemma CloseWriteNoted(x: Endpoint, q: seq<Frame>, j: StreamId, id: StreamId)
    requires Enabled(x, q, CloseWrite(j))
    ensures Remembers(Step(x, q, CloseWrite(j)).0, id) == Noted(Remembers(x, id), CloseWrite(j), id)
  {
    assert Written(x, id) + [] == Written(x, id);
  }

  lemma ReadNoted(x: Endpoint, q: seq<Frame>, j: StreamId, n: nat, id: StreamId)
    requires Enabled(x, q, Read(j, n))
    ensures Remembers(Step(x, q, Read(j, n)).0, id) == Noted(Remembers(x, id), Read(j, n), id)
  {
    assert Written(x, id) + [] == Written(x, id);
  }

  lemma StopNoted(x: Endpoint, id: StreamId)
    ensures Remembers(Stop(x), id) == Remembers(x, id).(done := true)
  {
  }

  lemma FrameNoted(x: Endpoint, p: seq<Frame>, y: Endpoint, q: seq<Frame>, id: StreamId)
    requires Pair(x, p, y, q) && Enabled(x, q, Deliver)
    ensures Remembers(Receive(x, q[0]), id) == Remembers(x, id)
  {
    OpenHead(y, q, x);
    LiveIsKnown(x);
    hide Pair, Remembers;
    var z, f := Receive(x, q[0]), q[0];
    match f
    case Open(j) =>
      OpenOutcome(x, j);
      if j in z.streams { PutNoted(x, z, j, NEW_STREAM, id); } else { OwedNoted(x, z, id); }
    case Data(j, payload) =>
      DataOutcome(x, j, payload);
      if z != x { PutNoted(x, z, j, z.streams[j], id); }
    case _ =>
      if f.id in x.live { PutNoted(x, z, f.id, z.streams[f.id], id); }
  }

  lemma OwedNoted(x: Endpoint, z: Endpoint, id: StreamId)
    requires z == x.(owed := z.owed)
    ensures Remembers(z, id) == Remembers(x, id)
  {
  }

  lemma OtherEnd(l: Link, t: Turn, host: bool)
    requires CanTurn(l, t) && t.byHost != host
    ensures Mux.End(Take(l, t), host) == Mux.End(l, host)
  {
    hide Step;
  }

  lemma OwnEnd(l: Link, t: Turn)
    requires LinkOk(l) && CanTurn(l, t)
    ensures var x, y, p, q := Mux.End(l, t.byHost), Mux.End(l, !t.byHost), Pipe(l, t.byHost), Pipe(l, !t.byHost);
            && Pair(x, p, y, q) && Enabled(x, q, t.m)
            && Mux.End(Take(l, t), t.byHost) == Step(x, q, t.m).0
            && Pipe(Take(l, t), t.byHost) == p + Step(x, q, t.m).1
            && Pipe(Take(l, t), !t.byHost) == Rest(q, t.m)
  {
    hide Step, Pair, Enabled;
    PairSwaps(l.host, l.down, l.runner, l.up);
  }

  lemma HappenedSnoc(run: seq<Turn>, t: Turn, host: bool, id: StreamId)
    ensures Happened(run + [t], host, id) ==
            if t.byHost == host then Noted(Happened(run, host, id), t.m, id) else Happened(run, host, id)
  {
    assert (run + [t])[..|run|] == run;
    assert WrittenBy(run, host, id) + [] == WrittenBy(run, host, id);
  }

  /** An endpoint remembers exactly what its own moves did: the bytes written and
      read of a stream, whether it was opened, closed and its close written, how
      often it dialled, and whether it shut down. */
  lemma {:induction false} RunIsRemembered(run: seq<Turn>, host: bool, id: StreamId)
    requires Legal(run)
    ensures Remembers(Mux.End(After(run), host), id) == Happened(run, host, id)
  {
    if run != [] {
      hide CanTurn, Take, LinkOk, Remembers, Happened, Noted;
      var init, t := run[..|run| - 1], run[|run| - 1];
      assert run == init + [t];
      RunIsRemembered(init, host, id);
      ReachableOk(init);
      HappenedSnoc(init, t, host, id);
      var l := After(init);
      if t.byHost == host {
        OwnEnd(l, t);
        MoveNoted(Mux.End(l, host), Pipe(l, host), Mux.End(l, !host), Pipe(l, !host), t.m, id);
      } else {
        OtherEnd(l, t, host);
      }
    }
  }

  // ------------------------------------------------------- accepting in order

  /** The id that a step hands to a caller of accept. */
  function HandedBy(l: Link, t: Turn, host: bool): seq<StreamId> {
    if t.byHost == host && t.m.AcceptNext? && Mux.End(l, host).queue != [] then [Mux.End(l, host).queue[0]] else []
  }

  /** The id of a stream that a step newly admits. */
  function AdmittedBy(l: Link, t: Turn, host: bool): seq<StreamId> {
    var x, q := Mux.End(l, host), Pipe(l, !host);
    if t.byHost == host && t.m.Deliver? && q != [] && q[0].Open? && |x.live| < MAX_STREAMS && |x.queue| < ACCEPT_QUEUE
    then [q[0].id] else []
  }

  ghost function Handed(run: seq<Turn>, host: bool): seq<StreamId>
    requires Legal(run)
  {
    if run == [] then []
    else Handed(run[..|run| - 1], host) + HandedBy(After(run[..|run| - 1]), run[|run| - 1], host)
  }

  ghost function AllAdmitted(run: seq<Turn>, host: bool): seq<StreamId>
    requires Legal(run)
  {
    if run == [] then []
    else AllAdmitted(run[..|run| - 1], host) + AdmittedBy(After(run[..|run| - 1]), run[|run| - 1], host)
  }

  lemma QueueStep(l: Link, t: Turn, host: bool)
    requires LinkOk(l) && CanTurn(l, t)
    ensures HandedBy(l, t, host) + Mux.End(Take(l, t), host).queue
            == Mux.End(l, host).queue + AdmittedBy(l, t, host)
  {
    hide LinkOk, CanTurn, Take, Enabled, Step, Receive, Pair, HandedBy, AdmittedBy, Queued;
    var x, q := Mux.End(l, host), Pipe(l, !host);
    if t.byHost == host {
      OwnEnd(l, t);
      QueueMove(x, Pipe(l, host), Mux.End(l, !host), q, t.m);
      QueueShifts(l, t.m, host);
    } else {
      OtherEnd(l, t, host);
      QueueRests(l, t, host);
    }
  }

  lemma QueueRests(l: Link, t: Turn, host: bool)
    requires t.byHost != host
    ensures var queue := Mux.End(l, host).queue; HandedBy(l, t, host) + queue == queue + AdmittedBy(l, t, host)
  {
    var queue := Mux.End(l, host).queue;
    assert [] + queue == queue + [];
  }

  lemma QueueShifts(l: Link, m: Move, host: bool)
    requires Enabled(Mux.End(l, host), Pipe(l, !host), m) && Queued(Mux.End(l, host), Pipe(l, !host), m)
    ensures var x, q := Mux.End(l, host), Pipe(l, !host);
            HandedBy(l, Turn(host, m), host) + Step(x, q, m).0.queue == x.queue + AdmittedBy(l, Turn(host, m), host)
  {
    hide Step, Enabled;
    var queue := Mux.End(l, host).queue;
    assert forall z: seq<StreamId> :: [] + z == z;
    assert queue + [] == queue;
  }

  ghost predicate Queued(x: Endpoint, q: seq<Frame>, m: Move)
    requires Enabled(x, q, m)
  {
    var z := Step(x, q, m).0;
    && (m.AcceptNext? ==> x.queue != [] && x.queue == [x.queue[0]] + z.queue)
    && (m.Deliver? ==> q != [])
    && (m.Deliver? && q[0].Open? ==>
          z.queue == x.queue + if |x.live| < MAX_STREAMS && |x.queue| < ACCEPT_QUEUE then [q[0].id] else [])
    && (!m.AcceptNext? && !(m.Deliver? && q[0].Open?) ==> z.queue == x.queue)
  }

  lemma FrameQueues(x: Endpoint, q: seq<Frame>)
    requires Enabled(x, q, Deliver) && (q[0].Open? ==> q[0].id !in x.live)
    ensures Queued(x, q, Deliver)
  {
    hide Stop;
    assert x.queue + [] == x.queue;
  }

  lemma OthersQueue(x: Endpoint, q: seq<Frame>, m: Move)
    requires Enabled(x, q, m) && !m.Deliver?
    ensures Queued(x, q, m)
  {
    hide Receive, Stop;
    StopQueue(x);
  }

  lemma StopQueue(x: Endpoint)
    ensures Stop(x).queue == x.queue
  {
  }

  lemma QueueMove(x: Endpoint, p: seq<Frame>, y: Endpoint, q: seq<Frame>, m: Move)
    requires Pair(x, p, y, q) && Enabled(x, q, m)
    ensures Queued(x, q, m)
  {
    if m.Deliver? {
      OpenHead(y, q, x);
      LiveIsKnown(x);
      hide Pair, Queued, Step, Receive;
      FrameQueues(x, q);
    } else {
      hide Pair, Queued, Step;
      OthersQueue(x, q, m);
    }
  }

  lemma OneMore(run: seq<Turn>, host: bool)
    requires Legal(run) && run != []
    ensures var init, t := run[..|run| - 1], run[|run| - 1];
            && Legal(init) && CanTurn(After(init), t) && After(run) == Take(After(init), t)
            && Handed(run, host) == Handed(init, host) + HandedBy(After(init), t, host)
            && AllAdmitted(run, host) == AllAdmitted(init, host) + AdmittedBy(After(init), t, host)
  {
    hide CanTurn, Take, HandedBy, AdmittedBy;
  }

  lemma Regroups(a: seq<StreamId>, b: seq<StreamId>, c: seq<StreamId>, d: seq<StreamId>, e: seq<StreamId>)
    requires b + c == d + e
    ensures (a + b) + c == (a + d) + e
  {
    assert (a + b) + c == a + (b + c) && (a + d) + e == a + (d + e);
  }

  /** Streams are accepted in the order in which they were admitted, each once;
      one is admitted exactly if its open frame finds room in map and queue. */
  lemma {:induction false} AcceptedInOrder(run: seq<Turn>, host: bool)
    requires Legal(run)
    ensures Handed(run, host) + Mux.End(After(run), host).queue == AllAdmitted(run, host)
  {
    if run != [] {
      hide CanTurn, Take, LinkOk, HandedBy, AdmittedBy, Handed, AllAdmitted, Legal, After;
      var init, t := run[..|run| - 1], run[|run| - 1];
      OneMore(run, host);
      AcceptedInOrder(init, host);
      ReachableOk(init);
      QueueStep(After(init), t, host);
      Regroups(Handed(init, host), HandedBy(After(init), t, host), Mux.End(After(run), host).queue,
               Mux.End(After(init), host).queue, AdmittedBy(After(init), t, host));
    }
  }

  // ------------------------------------------------- once all has been done

  /** What the endpoints do without being asked: finish dials and closes, deliver
      frames and answer them. */
  predicate Own(m: Move) { m.DialOpen? || m.CloseWrite? || m.Deliver? || m.Reply? }

  /** Nothing of it is left to do. */
  ghost predicate Idle(l: Link) { forall t: Turn :: Own(t.m) ==> !CanTurn(l, t) }

  /** A closed side whose close frame is not yet written is on record. */
  ghost predicate PendingOk(x: Endpoint) {
    forall id :: LocallyClosed(x, id) && Sealed(x, id).None? ==> id in x.closing
  }

  lemma MovePending(x: Endpoint, p: seq<Frame>, y: Endpoint, q: seq<Frame>, m: Move)
    requires Pair(x, p, y, q) && Enabled(x, q, m) && PendingOk(x)
    ensures PendingOk(Step(x, q, m).0)
  {
    var z := Step(x, q, m).0;
    forall id | LocallyClosed(z, id) && Sealed(z, id).None? ensures id in z.closing {
      MoveNoted(x, p, y, q, m, id);
      ClosingMoves(x, q, m, id);
    }
  }

  lemma ClosingMoves(x: Endpoint, q: seq<Frame>, m: Move, id: StreamId)
    requires Enabled(x, q, m) && (id in x.closing || (m == CloseLocal(id) && !LocallyClosed(x, id)))
    ensures id in Step(x, q, m).0.closing || m == CloseWrite(id)
  {
    hide Stop, Receive;
    StopClosing(x);
    if m.Deliver? { FrameClosing(x, q[0]); }
  }

  lemma FrameClosing(x: Endpoint, f: Frame)
    ensures Receive(x, f).closing == x.closing
  {
    hide Stop;
    StopClosing(x.(duplicate := true));
  }

  lemma StopClosing(x: Endpoint)
    ensures Stop(x).closing == x.closing
  {
  }

  lemma {:induction false} ReachablePending(run: seq<Turn>, host: bool)
    requires Legal(run)
    ensures PendingOk(Mux.End(After(run), host))
  {
    if run != [] {
      hide CanTurn, Take, LinkOk, PendingOk;
      var init, t := run[..|run| - 1], run[|run| - 1];
      ReachablePending(init, host);
      ReachableOk(init);
      var l := After(init);
      if t.byHost == host {
        OwnEnd(l, t);
        MovePending(Mux.End(l, host), Pipe(l, host), Mux.End(l, !host), Pipe(l, !host), t.m);
      } else {
        OtherEnd(l, t, host);
      }
    } else {
      NonePending(host);
    }
  }

  lemma NonePending(host: bool)
    ensures PendingOk(Mux.End(InitialLink(), host))
  {
  }

  lemma OwnCanTurn(l: Link, host: bool)
    requires !l.host.done && !l.runner.done
    ensures var x := Mux.End(l, host);
            && (forall id :: id in x.dialing ==> CanTurn(l, Turn(host, DialOpen(id))))
            && (forall id :: id in x.closing && id in x.streams ==> CanTurn(l, Turn(host, CloseWrite(id))))
            && (x.owed.Some? ==> CanTurn(l, Turn(host, Reply)))
            && (Pipe(l, host) != [] ==> CanTurn(l, Turn(!host, Deliver)) || CanTurn(l, Turn(!host, Reply)))
  {
  }

  lemma IdleMeansDone(l: Link, host: bool)
    requires Idle(l) && !l.host.done && !l.runner.done
    ensures var x := Mux.End(l, host);
            && (forall id :: id !in x.dialing) && x.owed.None? && Pipe(l, host) == []
            && forall id :: id in x.closing ==> id !in x.streams
  {
    hide CanTurn;
    OwnCanTurn(l, host);
    var x := Mux.End(l, host);
    forall id ensures id !in x.dialing { assert Own(Turn(host, DialOpen(id)).m); }
    forall id | id in x.closing ensures id !in x.streams { assert Own(Turn(host, CloseWrite(id)).m); }
    assert Own(Turn(host, Reply).m) && Own(Turn(!host, Deliver).m) && Own(Turn(!host, Reply).m);
  }

  /** While both ends run, and once they have nothing left to do by themselves: a
      stream that was dialled has reached the peer, or has failed; one that was
      closed is remotely closed there; and every byte written on it has been read
      or waits in the buffer, if the peer still accepts. */
  lemma EverythingArrives(run: seq<Turn>, host: bool, id: StreamId)
    requires Legal(run) && Idle(After(run)) && !After(run).host.done && !After(run).runner.done
    ensures var x, y := Mux.End(After(run), host), Mux.End(After(run), !host);
            && (id in x.ids ==> id in y.streams || FailedAt(x, id))
            && (Turn(host, CloseLocal(id)) in run && id in y.streams ==> ClosedAt(y, id))
            && (Accepting(y, id) ==> y.streams[id].read + y.streams[id].buffer == WrittenBy(run, host, id))
  {
    hide Legal, After, Idle, Accepting, WrittenBy, LocallyClosed, Sealed, PendingOk, LinkOk, LinkKept, ReadBy, Dials;
    var l := After(run);
    var x := Mux.End(l, host);
    IdleMeansDone(l, host);
    IdleMeansDone(l, !host);
    RunIsRemembered(run, host, id);
    ReachablePending(run, host);
    if LocallyClosed(x, id) { PendingAt(x, id); }
    NothingIsLost(run, host, id);
    BytesConserved(run, host, id);
    assert !HasClose([], id) && DataOf([], id) == [];
    if Accepting(Mux.End(l, !host), id) {
      AcceptingKnown(Mux.End(l, !host), id);
      var s := Mux.End(l, !host).streams[id];
      assert s.read + s.buffer + [] == s.read + s.buffer;
    }
  }

  lemma AcceptingKnown(y: Endpoint, id: StreamId)
    requires Accepting(y, id)
    ensures id in y.streams
  {
  }

  lemma PendingAt(x: Endpoint, id: StreamId)
    requires PendingOk(x) && LocallyClosed(x, id)
    ensures id in x.streams && (Sealed(x, id).Some? || id in x.closing)
  {
  }

  // ------------------------------------------------------------- it all ends

  /** How much a frame under way can still cause. */
  function Weight(f: Frame): nat { if f.Open? || f.Data? then 3 else 1 }

  function PipeWork(p: seq<Frame>): nat { if p == [] then 0 else Weight(p[0]) + PipeWork(p[1..]) }

  function EndWork(x: Endpoint): nat { 4 * |x.dialing| + 2 * |x.closing| + if x.owed.Some? then 2 else 0 }

  /** Every move that an end makes by itself brings this down. */
  function Work(l: Link): nat { EndWork(l.host) + EndWork(l.runner) + PipeWork(l.down) + PipeWork(l.up) }

  lemma {:induction false} PipeWorkSnoc(p: seq<Frame>, f: Frame)
    ensures PipeWork(p + [f]) == PipeWork(p) + Weight(f)
  {
    if p == [] {
      assert (p + [f])[1..] == [];
    } else {
      assert (p + [f])[1..] == p[1..] + [f];
      PipeWorkSnoc(p[1..], f);
    }
  }

  lemma FrameWork(x: Endpoint, f: Frame)
    requires x.owed.None?
    ensures var z := Receive(x, f);
            && z.dialing == x.dialing && z.closing == x.closing
            && (z.owed.Some? ==> f.Open? || f.Data?)
  {
    hide Stop;
    StopClosing(x.(duplicate := true));
    StopRest(x.(duplicate := true));
  }

  lemma StopRest(x: Endpoint)
    ensures Stop(x).dialing == x.dialing && Stop(x).owed == x.owed
  {
  }

  lemma DeliverWorks(x: Endpoint, q: seq<Frame>)
    requires x.owed.None? && q != []
    ensures EndWork(Receive(x, q[0])) + PipeWork(q[1..]) < EndWork(x) + PipeWork(q)
  {
    FrameWork(x, q[0]);
    FirstWeighs(q);
    hide Receive, PipeWork;
  }

  lemma DialWorks(x: Endpoint, id: StreamId)
    requires id in x.dialing
    ensures EndWork(x.(dialing := x.dialing - {id})) == EndWork(x) - 4
  {
  }

  lemma CloseWorks(x: Endpoint, z: Endpoint, id: StreamId)
    requires id in x.closing && z.closing == x.closing - {id} && z.dialing == x.dialing && z.owed == x.owed
    ensures EndWork(z) == EndWork(x) - 2
  {
    FewerKeys(x.closing, id);
  }

  lemma ReplyWorks(x: Endpoint)
    requires x.owed.Some?
    ensures EndWork(x.(owed := None)) == EndWork(x) - 2
  {
  }

  ghost predicate Lighter(x: Endpoint, p: seq<Frame>, q: seq<Frame>, m: Move)
    requires Enabled(x, q, m)
  {
    var (z, out) := Step(x, q, m);
    EndWork(z) + PipeWork(p + out) + PipeWork(Rest(q, m)) < EndWork(x) + PipeWork(p) + PipeWork(q)
  }

  lemma OpeningIsLighter(x: Endpoint, p: seq<Frame>, q: seq<Frame>, id: StreamId)
    requires Enabled(x, q, DialOpen(id))
    ensures Lighter(x, p, q, DialOpen(id))
  {
    hide PipeWork, EndWork;
    PipeWorkSnoc(p, Open(id));
    DialWorks(x, id);
  }

  lemma ClosingIsLighter(x: Endpoint, p: seq<Frame>, q: seq<Frame>, id: StreamId)
    requires Enabled(x, q, CloseWrite(id))
    ensures Lighter(x, p, q, CloseWrite(id))
  {
    hide PipeWork, EndWork;
    PipeWorkSnoc(p, Close(id));
    CloseWorks(x, Step(x, q, CloseWrite(id)).0, id);
  }

  lemma DeliveringIsLighter(x: Endpoint, p: seq<Frame>, q: seq<Frame>)
    requires Enabled(x, q, Deliver)
    ensures Lighter(x, p, q, Deliver)
  {
    hide PipeWork, EndWork, Receive;
    DeliverWorks(x, q);
    assert p + [] == p;
  }

  lemma ReplyingIsLighter(x: Endpoint, p: seq<Frame>, q: seq<Frame>)
    requires Enabled(x, q, Reply)
    ensures Lighter(x, p, q, Reply)
  {
    hide PipeWork, EndWork;
    PipeWorkSnoc(p, Reset(x.owed.value));
    ReplyWorks(x);
  }

  lemma MoveWorks(x: Endpoint, p: seq<Frame>, q: seq<Frame>, m: Move)
    requires Enabled(x, q, m) && Own(m)
    ensures Lighter(x, p, q, m)
  {
    hide Lighter;
    match m
    case DialOpen(id) => OpeningIsLighter(x, p, q, id);
    case CloseWrite(id) => ClosingIsLighter(x, p, q, id);
    case Deliver => DeliveringIsLighter(x, p, q);
    case Reply => ReplyingIsLighter(x, p, q);
  }

  lemma FirstWeighs(q: seq<Frame>)
    requires q != []
    ensures PipeWork(q) == Weight(q[0]) + PipeWork(q[1..])
  {
  }

  lemma FewerKeys(closing: map<StreamId, bool>, id: StreamId)
    requires id in closing
    ensures |closing - {id}| == |closing| - 1
  {
    assert (closing - {id}).Keys == closing.Keys - {id};
    assert |closing - {id}| == |(closing - {id}).Keys| && |closing| == |closing.Keys|;
  }

  /** However the ends take turns, what they do by themselves comes to an end. */
  lemma {:induction false} TurnsEnd(run: seq<Turn>, more: seq<Turn>)
    requires Legal(run) && Legal(run + more) && forall i :: 0 <= i < |more| ==> Own(more[i].m)
    ensures |more| + Work(After(run + more)) <= Work(After(run))
    decreases |more|
  {
    if more == [] {
      assert run + more == run;
    } else {
      hide Enabled, Step, EndWork, PipeWork, Own;
      var init, t := more[..|more| - 1], more[|more| - 1];
      assert (run + more)[..|run + more| - 1] == run + init;
      TurnsEnd(run, init);
      var l := After(run + init);
      if t.byHost { MoveWorks(l.host, l.down, l.up, t.m); } else { MoveWorks(l.runner, l.up, l.down, t.m); }
    }
  }

  // ------------------------------------------------------------- end of file

  /** What a reader takes for the end of the file: the remote side closed without
      a failure while the local side was open. */
  predicate CleanEnd(s: Stream) { s.remoteClosed && !s.failed && !s.localClosed }

  ghost predicate EndsOk(x: Endpoint) { forall id :: id in x.streams && CleanEnd(x.streams[id]) ==> x.streams[id].eof }

  lemma MoveEnds(x: Endpoint, p: seq<Frame>, y: Endpoint, q: seq<Frame>, m: Move)
    requires Pair(x, p, y, q) && Enabled(x, q, m) && EndsOk(x)
    ensures EndsOk(Step(x, q, m).0)
  {
    LiveIsKnown(x);
    hide Pair, EndsOk, Step, Receive, Stop;
    match m
    case Deliver => DeliverEnds(x, q);
    case Shutdown => ShutdownEnds(x, q);
    case DialStart => DialEnds(x, q);
    case WriteChunk(id, _) => StreamEnds(x, q, m, id);
    case CloseLocal(id) => StreamEnds(x, q, m, id);
    case CloseWrite(id) => StreamEnds(x, q, m, id);
    case Read(id, _) => StreamEnds(x, q, m, id);
    case DialOpen(_) => SameStreamsEnd(x, q, m);
    case Reply => SameStreamsEnd(x, q, m);
    case AcceptNext => SameStreamsEnd(x, q, m);
  }

  lemma DeliverEnds(x: Endpoint, q: seq<Frame>)
    requires Enabled(x, q, Deliver) && EndsOk(x) && x.live <= x.streams.Keys
    ensures EndsOk(Step(x, q, Deliver).0)
  {
    hide EndsOk, Receive;
    FrameEnds(x, q[0]);
  }

  lemma ShutdownEnds(x: Endpoint, q: seq<Frame>)
    requires Enabled(x, q, Shutdown) && EndsOk(x)
    ensures EndsOk(Step(x, q, Shutdown).0)
  {
    hide EndsOk, Stop;
    StopEnds(x, x);
  }

  lemma DialEnds(x: Endpoint, q: seq<Frame>)
    requires Enabled(x, q, DialStart) && EndsOk(x)
    ensures EndsOk(Step(x, q, DialStart).0)
  {
    hide EndsOk;
    FreshEnds(x, Step(x, q, DialStart).0, Step(x, q, DialStart).0.next);
  }

  lemma StreamEnds(x: Endpoint, q: seq<Frame>, m: Move, id: StreamId)
    requires Enabled(x, q, m) && EndsOk(x)
    requires m == CloseLocal(id) || m == CloseWrite(id) || (m.WriteChunk? && m.id == id) || (m.Read? && m.id == id)
    ensures EndsOk(Step(x, q, m).0)
  {
    hide EndsOk, Receive, Stop;
    RewrittenEnds(x, Step(x, q, m).0, id);
  }

  lemma SameStreamsEnd(x: Endpoint, q: seq<Frame>, m: Move)
    requires Enabled(x, q, m) && EndsOk(x) && (m.DialOpen? || m.Reply? || m.AcceptNext?)
    ensures EndsOk(Step(x, q, m).0)
  {
    hide EndsOk;
    SameEnds(x, Step(x, q, m).0);
  }

  lemma RewrittenEnds(x: Endpoint, z: Endpoint, id: StreamId)
    requires EndsOk(x) && id in x.streams && z.streams.Keys == x.streams.Keys
    requires forall j :: j in x.streams && j != id ==> z.streams[j] == x.streams[j]
    requires z.streams[id].eof == x.streams[id].eof && (CleanEnd(z.streams[id]) ==> CleanEnd(x.streams[id]))
    ensures EndsOk(z)
  {
    hide CleanEnd;
  }

  lemma PutEnds(x: Endpoint, z: Endpoint, j: StreamId, t: Stream)
    requires EndsOk(x) && z.streams == x.streams[j := t] && (CleanEnd(t) ==> t.eof)
    ensures EndsOk(z)
  {
    hide CleanEnd;
  }

  lemma FrameEnds(x: Endpoint, f: Frame)
    requires EndsOk(x) && x.live <= x.streams.Keys
    ensures EndsOk(Receive(x, f))
  {
    hide EndsOk, Receive;
    match f
    case Open(id) => OpenEnds(x, id);
    case Data(id, payload) => DataEnds(x, id, payload);
    case Close(id) => CloseEnds(x, f);
    case Reset(id) => CloseEnds(x, f);
  }

  lemma OpenEnds(x: Endpoint, id: StreamId)
    requires EndsOk(x)
    ensures EndsOk(Receive(x, Open(id)))
  {
    hide EndsOk, Stop, CleanEnd;
    var z := Receive(x, Open(id));
    if id in x.live { StopEnds(x.(duplicate := true), x); }
    else if z.streams == x.streams { SameEnds(x, z); }
    else { FreshEnds(x, z, id); }
  }

  lemma FreshEnds(x: Endpoint, z: Endpoint, id: StreamId)
    requires EndsOk(x) && z.streams == x.streams[id := NEW_STREAM]
    ensures EndsOk(z)
  {
    PutEnds(x, z, id, NEW_STREAM);
  }

  lemma DataEnds(x: Endpoint, id: StreamId, payload: Bytes)
    requires EndsOk(x)
    ensures EndsOk(Receive(x, Data(id, payload)))
  {
    hide EndsOk, Receive;
    DataOutcome(x, id, payload);
    var z := Receive(x, Data(id, payload));
    if z != x {
      EofOf(x, id);
      PutEnds(x, z, id, z.streams[id]);
    }
  }

  lemma CloseEnds(x: Endpoint, f: Frame)
    requires EndsOk(x) && (f.Close? || f.Reset?)
    ensures EndsOk(Receive(x, f))
  {
    hide EndsOk;
    if f.id in x.live && f.id in x.streams {
      EofOf(x, f.id);
      PutEnds(x, Receive(x, f), f.id, Receive(x, f).streams[f.id]);
    }
  }

  lemma EofOf(x: Endpoint, id: StreamId)
    requires EndsOk(x) && id in x.streams
    ensures CleanEnd(x.streams[id]) ==> x.streams[id].eof
  {
  }

  lemma SameEnds(x: Endpoint, z: Endpoint)
    requires EndsOk(x) && z.streams == x.streams
    ensures EndsOk(z)
  {
  }

  lemma StopEnds(y: Endpoint, x: Endpoint)
    requires EndsOk(x) && y.streams == x.streams
    ensures EndsOk(Stop(y))
  {
  }

  lemma {:induction false} ReachableEnds(run: seq<Turn>, host: bool)
    requires Legal(run)
    ensures EndsOk(Mux.End(After(run), host))
  {
    if run == [] {
      NoneEnded(host);
    } else {
      hide CanTurn, Take, LinkOk, EndsOk;
      var init, t := run[..|run| - 1], run[|run| - 1];
      ReachableEnds(init, host);
      ReachableOk(init);
      var l := After(init);
      if t.byHost == host {
        OwnEnd(l, t);
        MoveEnds(Mux.End(l, host), Pipe(l, host), Mux.End(l, !host), Pipe(l, !host), t.m);
      } else {
        OtherEnd(l, t, host);
      }
    }
  }

  lemma NoneEnded(host: bool)
    ensures EndsOk(Mux.End(InitialLink(), host))
  {
  }

  /** A reader that finds the end of the file after a clean close has been given
      every byte that the peer had written when it wrote its close. */
  lemma CleanEndIsComplete(run: seq<Turn>, host: bool, id: StreamId)
    requires Legal(run)
    requires var x := Mux.End(After(run), host);
             id in x.streams && CleanEnd(x.streams[id]) && x.streams[id].buffer == []
    ensures Sealed(Mux.End(After(run), !host), id) == Some(Mux.End(After(run), host).streams[id].read)
    ensures Turn(!host, CloseWrite(id)) in run
  {
    hide Legal, After, LocallyClosed, WrittenBy, ReadBy, Dials;
    ReachableEnds(run, host);
    EndOfFileIsComplete(run, host, id);
    RunIsRemembered(run, !host, id);
  }

  lemma Extend(run: seq<Turn>, t: Turn)
    requires Legal(run)
    ensures Legal(run + [t]) == CanTurn(After(run), t)
    ensures Legal(run + [t]) ==> After(run + [t]) == Take(After(run), t)
  {
    hide CanTurn, Take;
    assert (run + [t])[..|run|] == run;
  }

  /** While an end runs it may dial, up to 2^31 times, and write any chunk on a
      stream whose open frame is out; any such stream may be closed, and read as
      far as its buffer goes. */
  lemma MovesArePossible(run: seq<Turn>, host: bool, id: StreamId, chunk: Bytes, n: nat)
    requires Legal(run)
    ensures var x := Mux.End(After(run), host);
            && (!x.done && Dials(run, host) < HALF_WORD ==> Legal(run + [Turn(host, DialStart)]))
            && (!x.done && id in x.streams && id !in x.dialing && 0 < |chunk| <= MAX_FRAME ==>
                  Legal(run + [Turn(host, WriteChunk(id, chunk))]))
            && (id in x.streams && id !in x.dialing ==> Legal(run + [Turn(host, CloseLocal(id))]))
            && (id in x.streams && n <= |x.streams[id].buffer| ==> Legal(run + [Turn(host, Read(id, n))]))
            && (x.queue != [] ==> Legal(run + [Turn(host, AcceptNext)]))
  {
    hide Legal, After, WrittenBy, ReadBy, Dials;
    RunIsRemembered(run, host, id);
    Extend(run, Turn(host, DialStart));
    if 0 < |chunk| { Extend(run, Turn(host, WriteChunk(id, chunk))); }
    Extend(run, Turn(host, CloseLocal(id)));
    Extend(run, Turn(host, Read(id, n)));
    Extend(run, Turn(host, AcceptNext));
  }

  // --------------------------------------------------------------- shut down

  ghost predicate StoppedOk(x: Endpoint) {
    x.done ==> x.live == {} && forall id :: id in x.streams ==> ClosedAt(x, id)
  }

  lemma StopCloses(x: Endpoint)
    requires MapOk(x) && !x.done
    ensures StoppedOk(Stop(x)) && forall id :: id in x.live && id in x.streams ==> FailedAt(Stop(x), id)
  {
  }

  /** Only an end that runs changes its map or its streams' remote sides. */
  lemma StaysStopped(x: Endpoint, q: seq<Frame>, m: Move)
    requires Enabled(x, q, m) && x.done && StoppedOk(x)
    ensures StoppedOk(Step(x, q, m).0)
  {
    hide Receive, Stop;
  }

  lemma GoesOn(x: Endpoint, q: seq<Frame>, m: Move)
    requires Enabled(x, q, m) && !x.done && !m.Shutdown? && (m.Deliver? && q[0].Open? ==> q[0].id !in x.live)
    ensures !Step(x, q, m).0.done
  {
    hide Stop;
  }

  lemma MoveStopped(x: Endpoint, p: seq<Frame>, y: Endpoint, q: seq<Frame>, m: Move)
    requires Pair(x, p, y, q) && Enabled(x, q, m) && StoppedOk(x)
    ensures StoppedOk(Step(x, q, m).0)
  {
    KnownOpens(x, p, y, q);
    hide Pair, MapOk, StoppedOk, Step, Receive, Stop;
    if x.done {
      StaysStopped(x, q, m);
    } else if m.Shutdown? {
      StopCloses(x);
      ShutdownIsStop(x, q);
    } else {
      GoesOn(x, q, m);
      RunningIsOk(Step(x, q, m).0);
    }
  }

  lemma KnownOpens(x: Endpoint, p: seq<Frame>, y: Endpoint, q: seq<Frame>)
    requires Pair(x, p, y, q)
    ensures MapOk(x) && (q != [] && q[0].Open? ==> q[0].id !in x.live)
  {
    hide IdsOk, MapOk, StreamsOk, Names, Flow, Opens, Seals;
    LiveIsKnown(x);
    if q != [] { OpenHead(y, q, x); }
  }

  lemma ShutdownIsStop(x: Endpoint, q: seq<Frame>)
    requires Enabled(x, q, Shutdown)
    ensures Step(x, q, Shutdown).0 == Stop(x)
  {
    hide Stop;
  }

  lemma RunningIsOk(x: Endpoint)
    requires !x.done
    ensures StoppedOk(x)
  {
  }

  /** Once an end has shut down its map is empty and every stream it ever had is
      remotely closed, so no reader waits for ever. */
  lemma {:induction false} ShutdownEndsAll(run: seq<Turn>, host: bool)
    requires Legal(run)
    ensures StoppedOk(Mux.End(After(run), host))
  {
    if run == [] {
      RunningIsOk(Mux.End(InitialLink(), host));
    } else {
      hide CanTurn, Take, LinkOk, StoppedOk;
      var init, t := run[..|run| - 1], run[|run| - 1];
      ShutdownEndsAll(init, host);
      ReachableOk(init);
      var l := After(init);
      if t.byHost == host {
        OwnEnd(l, t);
        MoveStopped(Mux.End(l, host), Pipe(l, host), Mux.End(l, !host), Pipe(l, !host), t.m);
      } else {
        OtherEnd(l, t, host);
      }
    }
  }
}
