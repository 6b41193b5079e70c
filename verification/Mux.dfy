/** Two multiplexer endpoints over two frame pipes, in every interleaving of
    dials, writes, closes, resets, reads and deliveries. */
module Mux {
  import opened Protocol
  import opened MuxCodec

  const WORD := 0x1_0000_0000
  const HALF_WORD := 0x8000_0000
  const MAX_BUFFERED := 0x400_0000
  const MAX_STREAMS := 256
  const ACCEPT_QUEUE := 64

  /** One end of a stream. `written`, `accepted`, `read`, `sealed` and `eof`
      record its past: the bytes put into data frames, the bytes taken into the
      buffer, the bytes handed to the reader, what had been written when the
      close frame went out, and whether the peer's close frame found the stream
      still accepting. */
  datatype Stream = Stream(
    written: Bytes, sealed: Option<Bytes>, accepted: Bytes, read: Bytes, buffer: Bytes,
    localClosed: bool, remoteClosed: bool, failed: bool, eof: bool)

  const NEW_STREAM := Stream([], None, [], [], [], false, false, false, false)

  /** An endpoint. `streams` are all streams it ever made, `live` the keys of
      its stream map. `dialing` are dials whose open frame is not yet out,
      `closing` closes whose close frame is not yet out, with what they saw of
      the remote side; `owed` is a reset the read loop still has to write. */
  datatype Endpoint = Endpoint(
    role: nat, next: StreamId, ids: seq<StreamId>,
    streams: map<StreamId, Stream>, live: set<StreamId>, dialing: set<StreamId>,
    closing: map<StreamId, bool>, queue: seq<StreamId>, owed: Option<StreamId>, duplicate: bool, done: bool)

  /** The counter starts two below the role, modulo 2^32. */
  function NewEndpoint(role: nat): Endpoint
    requires role == 1 || role == 2
  {
    Endpoint(role, (role - 2) % WORD, [], map[], {}, {}, map[], [], None, false, false)
  }

  datatype Move =
    | DialStart
    | DialOpen(id: StreamId)
    | WriteChunk(id: StreamId, chunk: Bytes)
    | CloseLocal(id: StreamId)
    | CloseWrite(id: StreamId)
    | Deliver
    | Reply
    | AcceptNext
    | Read(id: StreamId, n: nat)
    | Shutdown

  predicate Enabled(x: Endpoint, incoming: seq<Frame>, m: Move) {
    match m
    case DialStart => !x.done && |x.ids| < HALF_WORD
    case DialOpen(id) => !x.done && id in x.dialing
    case WriteChunk(id, chunk) => !x.done && id in x.streams && id !in x.dialing && 0 < |chunk| <= MAX_FRAME
    case CloseLocal(id) => id in x.streams && id !in x.dialing
    case CloseWrite(id) => !x.done && id in x.closing && id in x.streams
    case Deliver => !x.done && x.owed.None? && incoming != []
    case Reply => !x.done && x.owed.Some?
    case AcceptNext => x.queue != []
    case Read(id, n) => id in x.streams && n <= |x.streams[id].buffer|
    case Shutdown => !x.done
  }

  function Put(x: Endpoint, id: StreamId, s: Stream): Endpoint { x.(streams := x.streams[id := s]) }

  /** The read loop's dispatch of one frame. */
  function Receive(x: Endpoint, f: Frame): Endpoint {
    match f
    case Open(id) =>
      if id in x.live then Stop(x.(duplicate := true))
      else if |x.live| >= MAX_STREAMS || |x.queue| >= ACCEPT_QUEUE then x.(owed := Some(id))
      else Put(x, id, NEW_STREAM).(live := x.live + {id}, queue := x.queue + [id])
    case Data(id, payload) =>
      if id in x.live && id in x.streams then
        var s := x.streams[id];
        if s.remoteClosed || s.localClosed then x
        else if |s.buffer| + |payload| > MAX_BUFFERED then
          Put(x, id, s.(failed := true, remoteClosed := true)).(owed := Some(id))
        else Put(x, id, s.(buffer := s.buffer + payload, accepted := s.accepted + payload))
      else x
    case Close(id) => if id in x.live && id in x.streams then RemoteClose(x, id, false) else x
    case Reset(id) => if id in x.live && id in x.streams then RemoteClose(x, id, true) else x
  }

  function RemoteClose(x: Endpoint, id: StreamId, failed: bool): Endpoint
    requires id in x.streams
  {
    var s := x.streams[id];
    var t := s.(remoteClosed := true, failed := s.failed || failed,
                eof := s.eof || (!failed && !s.remoteClosed && !s.localClosed));
    Put(x, id, t).(live := if s.localClosed then x.live - {id} else x.live)
  }

  /** Shutting down fails every live stream and empties the map. */
  function Stop(x: Endpoint): Endpoint {
    x.(done := true, live := {},
       streams := map id | id in x.streams ::
         if id in x.live then x.streams[id].(remoteClosed := true, failed := true) else x.streams[id])
  }

  /** A new stream is entered before its open frame goes out. */
  function Dialled(x: Endpoint, id: StreamId): Endpoint {
    Put(x, id, NEW_STREAM).(next := id, ids := x.ids + [id], live := x.live + {id}, dialing := x.dialing + {id})
  }

  /** One move: the new endpoint and the frames it writes. */
  function Step(x: Endpoint, incoming: seq<Frame>, m: Move): (Endpoint, seq<Frame>)
    requires Enabled(x, incoming, m)
  {
    match m
    case DialStart =>
      var id: StreamId := (x.next + 2) % WORD;
      (Dialled(x, id), [])
    case DialOpen(id) => (x.(dialing := x.dialing - {id}), [Open(id)])
    case WriteChunk(id, chunk) =>
      (Put(x, id, x.streams[id].(written := x.streams[id].written + chunk)), [Data(id, chunk)])
    case CloseLocal(id) =>
      var s := x.streams[id];
      (if s.localClosed then x
       else Put(x, id, s.(localClosed := true)).(closing := x.closing[id := s.remoteClosed]), [])
    case CloseWrite(id) =>
      var s := x.streams[id];
      (Put(x, id, s.(sealed := Some(s.written))).(
         closing := x.closing - {id}, live := if x.closing[id] then x.live - {id} else x.live), [Close(id)])
    case Deliver => (Receive(x, incoming[0]), [])
    case Reply => (x.(owed := None), [Reset(x.owed.value)])
    case AcceptNext => (x.(queue := x.queue[1..]), [])
    case Read(id, n) =>
      var s := x.streams[id];
      (Put(x, id, s.(buffer := s.buffer[n..], read := s.read + s.buffer[..n])), [])
    case Shutdown => (Stop(x), [])
  }

  // ---------------------------------------------------- frames of one stream

  function Part(f: Frame, id: StreamId): Bytes { if f.Data? && f.id == id then f.payload else [] }

  /** The bytes under way for a stream. */
  function DataOf(p: seq<Frame>, id: StreamId): Bytes {
    if p == [] then [] else Part(p[0], id) + DataOf(p[1..], id)
  }

  predicate HasClose(p: seq<Frame>, id: StreamId) {
    p != [] && (p[0] == Close(id) || HasClose(p[1..], id))
  }

  /** The bytes under way ahead of the stream's close frame. */
  function UntilClose(p: seq<Frame>, id: StreamId): Bytes {
    if p == [] || p[0] == Close(id) then [] else Part(p[0], id) + UntilClose(p[1..], id)
  }

  lemma {:induction false} DataGrows(p: seq<Frame>, f: Frame, id: StreamId)
    ensures DataOf(p + [f], id) == DataOf(p, id) + Part(f, id)
  {
    hide Part;
    if p == [] {
      assert (p + [f])[1..] == [];
    } else {
      assert (p + [f])[1..] == p[1..] + [f];
      DataGrows(p[1..], f, id);
    }
  }

  lemma {:induction false} PipeGrows(p: seq<Frame>, f: Frame, id: StreamId)
    ensures DataOf(p + [f], id) == DataOf(p, id) + Part(f, id)
    ensures HasClose(p + [f], id) == (HasClose(p, id) || f == Close(id))
    ensures UntilClose(p + [f], id) ==
            if HasClose(p, id) then UntilClose(p, id) else DataOf(p, id) + Part(f, id)
  {
    DataGrows(p, f, id);
    if p == [] {
      assert (p + [f])[1..] == [];
    } else {
      assert (p + [f])[1..] == p[1..] + [f];
      PipeGrows(p[1..], f, id);
    }
  }

  // ------------------------------------------------------------ identifiers

  /** The id of the k-th dial, from 0. */
  function IdAt(role: nat, k: nat): StreamId { (role + 2 * k) % WORD }

  lemma IdsDiffer(role: nat, j: nat, k: nat)
    requires j < k < HALF_WORD
    ensures IdAt(role, j) != IdAt(role, k)
  {
    assert 0 < 2 * k - 2 * j < WORD;
  }

  /** 32-bit wrap-around keeps host ids odd and runner ids even. */
  lemma IdParity(role: nat, k: nat)
    ensures IdAt(role, k) % 2 == role % 2
  {
    var n := role + 2 * k;
    assert n == n / WORD * WORD + IdAt(role, k);
  }

  // -------------------------------------------------------------- invariants

  function Written(x: Endpoint, id: StreamId): Bytes { if id in x.streams then x.streams[id].written else [] }
  function Sealed(x: Endpoint, id: StreamId): Option<Bytes> { if id in x.streams then x.streams[id].sealed else None }
  function Accepted(x: Endpoint, id: StreamId): Bytes { if id in x.streams then x.streams[id].accepted else [] }
  function Eof(x: Endpoint, id: StreamId): bool { id in x.streams && x.streams[id].eof }

  /** The read loop would append data for this stream. */
  predicate Accepting(x: Endpoint, id: StreamId) {
    id in x.live && id in x.streams && !x.streams[id].localClosed && !x.streams[id].remoteClosed
  }

  ghost predicate StreamOk(s: Stream) {
    && s.accepted == s.read + s.buffer
    && |s.buffer| <= MAX_BUFFERED
    && (s.sealed.Some? ==> s.localClosed)
    && (s.eof ==> s.remoteClosed)
  }

  ghost predicate IdsOk(x: Endpoint) {
    && (x.role == 1 || x.role == 2)
    && |x.ids| <= HALF_WORD
    && x.next == (x.role + 2 * |x.ids| + WORD - 2) % WORD
    && (forall i :: 0 <= i < |x.ids| ==> x.ids[i] == IdAt(x.role, i) && x.ids[i] in x.streams)
    && (forall id :: id in x.streams ==> id in x.ids || id % 2 != x.role % 2)
    && (forall id :: id in x.dialing ==> id in x.ids)
  }

  /** Every stream with a side still open is in the map; one with both sides
      closed is in it only until the pending close removes it. */
  ghost predicate MapOk(x: Endpoint) {
    && x.live <= x.streams.Keys
    && (forall id :: !x.done && id in x.streams && (!x.streams[id].localClosed || !x.streams[id].remoteClosed) ==>
          id in x.live)
    && (forall id :: id in x.live && x.streams[id].localClosed && x.streams[id].remoteClosed ==>
          (id in x.closing && x.closing[id]))
    && (forall id :: id in x.closing && x.closing[id] ==> id in x.streams && x.streams[id].remoteClosed)
    && (forall id :: id in x.closing ==> id in x.streams && x.streams[id].localClosed && x.streams[id].sealed.None?)
    && (forall id :: id in x.dialing ==> id in x.streams && !x.streams[id].localClosed)
  }

  ghost predicate EndOk(x: Endpoint) {
    && IdsOk(x) && MapOk(x) && StreamsOk(x)
    && !x.duplicate
  }

  ghost predicate StreamsOk(x: Endpoint) {
    forall id :: id in x.streams ==> StreamOk(x.streams[id])
  }

  /** Which ids may appear where. */
  ghost predicate Names(x: Endpoint, p: seq<Frame>, y: Endpoint) {
    && x.role != y.role
    && (forall i :: 0 <= i < |p| ==> p[i].id in x.streams || (p[i].Reset? && p[i].id % 2 == y.role % 2))
    && (x.owed.Some? ==> x.owed.value in x.streams || x.owed.value % 2 == y.role % 2)
    && (x.owed.Some? ==> x.owed.value !in x.dialing)
    && (forall id :: id in y.streams ==> id in y.ids || id in x.ids)
  }

  /** Conservation: what was written is what was accepted plus what is under
      way, for every stream that still accepts. */
  ghost predicate Flow(x: Endpoint, p: seq<Frame>, y: Endpoint) {
    && (forall id :: id !in x.streams ==> DataOf(p, id) == [])
    && (forall id :: Accepting(y, id) ==> Written(x, id) == Accepted(y, id) + DataOf(p, id))
    && (forall id :: Accepted(y, id) <= Written(x, id))
  }

  /** An open frame comes first of its stream, once, and the peer does not know
      the id yet. */
  ghost predicate Opens(x: Endpoint, p: seq<Frame>, y: Endpoint) {
    && (forall i :: 0 <= i < |p| && p[i].Open? ==>
          var id := p[i].id;
          && id in x.ids && id !in x.dialing && id !in y.streams
          && Written(x, id) == DataOf(p, id)
          && (HasClose(p, id) ==> Sealed(x, id) == Some(UntilClose(p, id))))
    && (forall i, j :: 0 <= i < |p| && 0 <= j < |p| && i != j && p[i].Open? && p[j].id == p[i].id ==>
          i < j && !p[j].Open?)
    && (forall id :: id in x.dialing ==> id !in y.streams && Written(x, id) == [])
    && (forall id, i :: id in x.dialing && 0 <= i < |p| ==> p[i].id != id)
  }

  /** A close frame follows everything written before it. */
  ghost predicate Seals(x: Endpoint, p: seq<Frame>, y: Endpoint) {
    && (forall id :: HasClose(p, id) ==> Sealed(x, id).Some?)
    && (forall id :: Accepting(y, id) && HasClose(p, id) ==>
          Sealed(x, id) == Some(Accepted(y, id) + UntilClose(p, id)))
    && (forall id :: Eof(y, id) ==> Sealed(x, id) == Some(Accepted(y, id)))
  }

  ghost predicate DirOk(x: Endpoint, p: seq<Frame>, y: Endpoint) {
    Names(x, p, y) && Flow(x, p, y) && Opens(x, p, y) && Seals(x, p, y)
  }

  // ------------------------------------------------------------------ frames

  lemma IdsFrame(x: Endpoint, z: Endpoint)
    requires IdsOk(x)
    requires z.role == x.role && z.next == x.next && z.ids == x.ids && z.dialing <= x.dialing
    requires x.streams.Keys <= z.streams.Keys
    requires forall id :: id in z.streams ==> id in x.streams || id % 2 != x.role % 2
    ensures IdsOk(z)
  {
  }

  lemma SameStreamsOk(x: Endpoint, z: Endpoint)
    requires StreamsOk(x) && z.streams == x.streams
    ensures StreamsOk(z)
  {
  }

  lemma StreamsPut(x: Endpoint, z: Endpoint, id: StreamId, t: Stream)
    requires StreamsOk(x) && StreamOk(t) && z.streams == x.streams[id := t]
    ensures StreamsOk(z)
  {
    hide StreamOk;
  }

  lemma StreamOf(x: Endpoint, id: StreamId)
    requires StreamsOk(x) && id in x.streams
    ensures StreamOk(x.streams[id])
  {
  }

  lemma StreamReads(s: Stream, n: nat)
    requires StreamOk(s) && n <= |s.buffer|
    ensures StreamOk(s.(buffer := s.buffer[n..], read := s.read + s.buffer[..n]))
  {
    assert s.read + s.buffer == (s.read + s.buffer[..n]) + s.buffer[n..];
  }

  lemma StreamTakes(s: Stream, d: Bytes)
    requires StreamOk(s) && |s.buffer| + |d| <= MAX_BUFFERED && !s.remoteClosed
    ensures StreamOk(s.(buffer := s.buffer + d, accepted := s.accepted + d))
  {
    assert s.read + (s.buffer + d) == s.accepted + d;
  }

  /** A step that changes no flag of any stream and no key of the map. */
  lemma MapFrame(x: Endpoint, z: Endpoint)
    requires MapOk(x) && z.streams.Keys == x.streams.Keys
    requires z.live == x.live && z.closing == x.closing && z.dialing == x.dialing && z.done == x.done
    requires forall id :: id in x.streams ==>
               z.streams[id].localClosed == x.streams[id].localClosed
               && z.streams[id].remoteClosed == x.streams[id].remoteClosed
               && z.streams[id].sealed == x.streams[id].sealed
    ensures MapOk(z)
  {
  }

  lemma SameStreams(x: Endpoint, z: Endpoint)
    requires z.streams == x.streams && z.live == x.live
    ensures forall j :: Written(z, j) == Written(x, j) && Sealed(z, j) == Sealed(x, j)
    ensures forall j :: Accepted(z, j) == Accepted(x, j) && Eof(z, j) == Eof(x, j) && Accepting(z, j) == Accepting(x, j)
  {
  }

  /** Nothing the sender's direction depends on has changed. */
  lemma SenderFrame(x: Endpoint, x': Endpoint, p: seq<Frame>, y: Endpoint)
    requires DirOk(x, p, y)
    requires x'.role == x.role && x'.ids == x.ids && x'.dialing == x.dialing
    requires x.streams.Keys <= x'.streams.Keys
    requires x'.owed == x.owed || x'.owed.None?
             || (x'.owed.value !in x.dialing && (x'.owed.value in x'.streams || x'.owed.value % 2 == y.role % 2))
    requires forall id :: Written(x', id) == Written(x, id) && Sealed(x', id) == Sealed(x, id)
    ensures DirOk(x', p, y)
  {
    hide DataOf, HasClose, UntilClose, Written, Sealed, Accepted, Eof, Accepting;
  }

  /** Nothing the receiver's direction depends on has changed, except that a
      stream may have stopped accepting. */
  lemma ReceiverFrame(x: Endpoint, p: seq<Frame>, y: Endpoint, y': Endpoint)
    requires DirOk(x, p, y)
    requires y'.role == y.role && y'.ids == y.ids && y'.streams.Keys == y.streams.Keys
    requires forall id :: Accepted(y', id) == Accepted(y, id) && Eof(y', id) == Eof(y, id)
    requires forall id :: Accepting(y', id) ==> Accepting(y, id)
    ensures DirOk(x, p, y')
  {
    hide DataOf, HasClose, UntilClose, Written, Sealed, Accepted, Eof, Accepting;
  }

  // ----------------------------------------------------------- single moves

  /** The state of one endpoint, its peer and both pipes. */
  ghost predicate Pair(x: Endpoint, p: seq<Frame>, y: Endpoint, q: seq<Frame>) {
    EndOk(x) && EndOk(y) && DirOk(x, p, y) && DirOk(y, q, x)
  }

  lemma NewIdIsFresh(x: Endpoint, y: Endpoint)
    requires IdsOk(x) && IdsOk(y) && |x.ids| < HALF_WORD && x.role != y.role
    requires forall id :: id in y.streams ==> id in y.ids || id in x.ids
    ensures var id := (x.next + 2) % WORD;
            && id == IdAt(x.role, |x.ids|) && id % 2 == x.role % 2
            && id !in x.ids && id !in x.streams && id !in y.streams && id !in y.ids
  {
    var n := |x.ids|;
    var id := IdAt(x.role, n);
    assert (x.next + 2) % WORD == id;
    IdParity(x.role, n);
    forall i | 0 <= i < n ensures x.ids[i] != id { IdsDiffer(x.role, i, n); }
    forall i | 0 <= i < |y.ids| ensures y.ids[i] != id { IdParity(y.role, i); }
  }

  lemma DialStartMap(x: Endpoint, id: StreamId)
    requires MapOk(x) && id !in x.streams
    ensures MapOk(Dialled(x, id))
  {
  }

  lemma DialStartEnd(x: Endpoint, id: StreamId)
    requires EndOk(x) && |x.ids| < HALF_WORD && id == (x.next + 2) % WORD
    requires id == IdAt(x.role, |x.ids|) && id !in x.streams
    ensures EndOk(Dialled(x, id))
  {
    hide StreamsOk, StreamOk, MapOk;
    DialStartMap(x, id);
    var z := Dialled(x, id);
    NewStreamOk();
    StreamsPut(x, z, id, NEW_STREAM);
    assert z.next == (z.role + 2 * |z.ids| + WORD - 2) % WORD;
    forall i | 0 <= i < |z.ids| ensures z.ids[i] == IdAt(z.role, i) && z.ids[i] in z.streams {
      if i < |x.ids| { assert z.ids[i] == x.ids[i]; }
    }
  }

  lemma PairFacts(x: Endpoint, p: seq<Frame>, y: Endpoint, q: seq<Frame>)
    requires Pair(x, p, y, q)
    ensures x.role % 2 != y.role % 2 && (forall id :: id in y.streams ==> id in y.ids || id in x.ids)
    ensures y.dialing <= y.streams.Keys
  {
    hide Flow, Opens, Seals, StreamOk;
  }

  lemma DialStartKeeps(x: Endpoint, p: seq<Frame>, y: Endpoint, q: seq<Frame>)
    requires Pair(x, p, y, q) && !x.done && |x.ids| < HALF_WORD
    ensures Pair(Step(x, q, DialStart).0, p, y, q)
  {
    hide Names, Flow, Opens, Seals, StreamOk, IdsOk, MapOk;
    var id: StreamId := (x.next + 2) % WORD;
    PairFacts(x, p, y, q);
    NewIdIsFresh(x, y);
    DialStartEnd(x, id);
    var z := Step(x, q, DialStart).0;
    DialStartOut(x, z, p, y, id);
    DialStartIn(y, q, x, z, id);
  }

  lemma DialStartOut(x: Endpoint, z: Endpoint, p: seq<Frame>, y: Endpoint, id: StreamId)
    requires DirOk(x, p, y) && id !in x.streams && id !in y.streams && id !in x.ids && id % 2 == x.role % 2
    requires x.role % 2 != y.role % 2
    requires z.role == x.role && z.ids == x.ids + [id] && z.dialing == x.dialing + {id} && z.owed == x.owed
    requires z.streams == x.streams[id := NEW_STREAM]
    ensures DirOk(z, p, y)
  {
    hide DataOf, HasClose, UntilClose;
    forall i | 0 <= i < |p| ensures p[i].id != id { }
    forall j: StreamId ensures Written(z, j) == Written(x, j) && Sealed(z, j) == Sealed(x, j) { }
    hide Written, Sealed, Accepted, Eof, Accepting;
    assert Written(z, id) == [];
  }

  lemma DialStartIn(y: Endpoint, q: seq<Frame>, x: Endpoint, z: Endpoint, id: StreamId)
    requires DirOk(y, q, x) && id !in x.streams && id !in y.streams && id !in y.ids && y.dialing <= y.streams.Keys
    requires z.role == x.role && z.ids == x.ids + [id] && z.live == x.live + {id}
    requires z.streams == x.streams[id := NEW_STREAM]
    ensures DirOk(y, q, z)
  {
    hide DataOf, HasClose, UntilClose;
    assert Sealed(y, id) == None && Written(y, id) == [];
    assert !HasClose(q, id);
  }

  lemma {:induction false} NoFrames(p: seq<Frame>, id: StreamId)
    requires forall i :: 0 <= i < |p| ==> p[i].id != id
    ensures DataOf(p, id) == [] && !HasClose(p, id)
  {
    if p != [] { NoFrames(p[1..], id); }
  }

  lemma PipeSame(p: seq<Frame>, f: Frame)
    requires f.Open? || f.Reset?
    ensures forall j :: DataOf(p + [f], j) == DataOf(p, j) && HasClose(p + [f], j) == HasClose(p, j)
    ensures forall j :: HasClose(p, j) ==> UntilClose(p + [f], j) == UntilClose(p, j)
  {
    forall j: StreamId
      ensures DataOf(p + [f], j) == DataOf(p, j) && HasClose(p + [f], j) == HasClose(p, j)
      ensures HasClose(p, j) ==> UntilClose(p + [f], j) == UntilClose(p, j)
    {
      PipeGrows(p, f, j);
    }
  }

  lemma DialOpenOut(x: Endpoint, p: seq<Frame>, y: Endpoint, id: StreamId)
    requires DirOk(x, p, y) && id in x.dialing && id in x.ids && id in x.streams
    ensures DirOk(x.(dialing := x.dialing - {id}), p + [Open(id)], y)
  {
    hide Accepting, Accepted, Eof, Written, Sealed, DataOf, HasClose, UntilClose, Part, Opens;
    SameStreams(x, x.(dialing := x.dialing - {id}));
    PipeSame(p, Open(id));
    DialOpenOpens(x, x.(dialing := x.dialing - {id}), p, y, id);
  }

  lemma DialOpenOpens(x: Endpoint, z: Endpoint, p: seq<Frame>, y: Endpoint, id: StreamId)
    requires Opens(x, p, y) && id in x.dialing && id in x.ids
    requires z.ids == x.ids && z.dialing == x.dialing - {id}
    requires forall j :: Written(z, j) == Written(x, j) && Sealed(z, j) == Sealed(x, j)
    ensures Opens(z, p + [Open(id)], y)
  {
    hide Written, Sealed, DataOf, HasClose, UntilClose;
    NoFrames(p, id);
    PipeSame(p, Open(id));
    var t := p + [Open(id)];
    assert t[|p|] == Open(id) && forall i :: 0 <= i < |p| ==> t[i] == p[i];
  }

  lemma DialOpenKeeps(x: Endpoint, p: seq<Frame>, y: Endpoint, q: seq<Frame>, id: StreamId)
    requires Pair(x, p, y, q) && Enabled(x, q, DialOpen(id))
    ensures Pair(Step(x, q, DialOpen(id)).0, p + [Open(id)], y, q)
  {
    hide Names, Flow, Opens, Seals, StreamOk;
    DialOpenOut(x, p, y, id);
    ReceiverFrame(y, q, x, x.(dialing := x.dialing - {id}));
  }

  lemma WriteOut(x: Endpoint, z: Endpoint, p: seq<Frame>, y: Endpoint, id: StreamId, chunk: Bytes)
    requires DirOk(x, p, y) && id in x.streams && id !in x.dialing
    requires z == Put(x, id, x.streams[id].(written := x.streams[id].written + chunk))
    ensures DirOk(z, p + [Data(id, chunk)], y)
  {
    hide DataOf, HasClose, UntilClose, Part, Written, Sealed, Accepted, Eof, Accepting, Opens;
    var f := Data(id, chunk);
    WriteFacts(x, z, p, id, chunk);
    WriteFlow(x, z, p, y, f);
    WriteOpens(x, z, p, y, f);
    hide Flow;
  }

  lemma WriteFacts(x: Endpoint, z: Endpoint, p: seq<Frame>, id: StreamId, chunk: Bytes)
    requires id in x.streams && z == Put(x, id, x.streams[id].(written := x.streams[id].written + chunk))
    ensures var f := Data(id, chunk);
            && (forall j :: DataOf(p + [f], j) == DataOf(p, j) + Part(f, j) && HasClose(p + [f], j) == HasClose(p, j))
            && (forall j :: HasClose(p, j) ==> UntilClose(p + [f], j) == UntilClose(p, j))
            && (forall j :: Written(z, j) == Written(x, j) + Part(f, j) && Sealed(z, j) == Sealed(x, j))
  {
    var f := Data(id, chunk);
    forall j: StreamId
      ensures DataOf(p + [f], j) == DataOf(p, j) + Part(f, j) && HasClose(p + [f], j) == HasClose(p, j)
      ensures HasClose(p, j) ==> UntilClose(p + [f], j) == UntilClose(p, j)
    {
      PipeGrows(p, f, j);
    }
    hide DataOf, HasClose, UntilClose;
    forall j: StreamId ensures Written(z, j) == Written(x, j) + Part(f, j) && Sealed(z, j) == Sealed(x, j) { }
  }

  lemma WriteFlow(x: Endpoint, z: Endpoint, p: seq<Frame>, y: Endpoint, f: Frame)
    requires Flow(x, p, y) && f.Data? && f.id in x.streams && z.streams.Keys == x.streams.Keys
    requires forall j :: DataOf(p + [f], j) == DataOf(p, j) + Part(f, j)
    requires forall j :: Written(z, j) == Written(x, j) + Part(f, j)
    ensures Flow(z, p + [f], y)
  {
    hide DataOf, Written, Accepted, Accepting;
    forall j | Accepting(y, j) ensures Written(z, j) == Accepted(y, j) + DataOf(p + [f], j) {
      assert Accepted(y, j) + (DataOf(p, j) + Part(f, j)) == (Accepted(y, j) + DataOf(p, j)) + Part(f, j);
    }
  }

  lemma WriteOpens(x: Endpoint, z: Endpoint, p: seq<Frame>, y: Endpoint, f: Frame)
    requires Opens(x, p, y) && f.Data? && f.id !in x.dialing
    requires z.ids == x.ids && z.dialing == x.dialing
    requires forall j :: DataOf(p + [f], j) == DataOf(p, j) + Part(f, j) && HasClose(p + [f], j) == HasClose(p, j)
    requires forall j :: HasClose(p, j) ==> UntilClose(p + [f], j) == UntilClose(p, j)
    requires forall j :: Written(z, j) == Written(x, j) + Part(f, j) && Sealed(z, j) == Sealed(x, j)
    ensures Opens(z, p + [f], y)
  {
    hide DataOf, HasClose, UntilClose, Written, Sealed;
  }

  lemma WriteKeeps(x: Endpoint, p: seq<Frame>, y: Endpoint, q: seq<Frame>, id: StreamId, chunk: Bytes)
    requires Pair(x, p, y, q) && Enabled(x, q, WriteChunk(id, chunk))
    ensures Pair(Step(x, q, WriteChunk(id, chunk)).0, p + [Data(id, chunk)], y, q)
  {
    hide Names, Flow, Opens, Seals, IdsOk, StreamsOk, MapOk;
    var z := Step(x, q, WriteChunk(id, chunk)).0;
    IdsFrame(x, z);
    MapFrame(x, z);
    StreamOf(x, id);
    StreamsPut(x, z, id, z.streams[id]);
    WriteOut(x, z, p, y, id, chunk);
    ReceiverFrame(y, q, x, z);
  }

  lemma CloseLocalMap(x: Endpoint, z: Endpoint, id: StreamId)
    requires MapOk(x) && StreamsOk(x) && id in x.streams && id !in x.dialing && !x.streams[id].localClosed
    requires z == Put(x, id, x.streams[id].(localClosed := true)).(
                    closing := x.closing[id := x.streams[id].remoteClosed])
    ensures MapOk(z)
  {
    StreamOf(x, id);
    hide StreamsOk, StreamOk;
  }

  lemma CloseLocalKeeps(x: Endpoint, p: seq<Frame>, y: Endpoint, q: seq<Frame>, id: StreamId)
    requires Pair(x, p, y, q) && Enabled(x, q, CloseLocal(id))
    ensures Pair(Step(x, q, CloseLocal(id)).0, p, y, q)
  {
    hide Names, Flow, Opens, Seals, IdsOk, StreamsOk, MapOk;
    var z := Step(x, q, CloseLocal(id)).0;
    if z == x { return; }
    IdsFrame(x, z);
    CloseLocalMap(x, z, id);
    StreamOf(x, id);
    StreamsPut(x, z, id, z.streams[id]);
    SenderFrame(x, z, p, y);
    ReceiverFrame(y, q, x, z);
  }

  lemma PipeClose(p: seq<Frame>, id: StreamId)
    requires !HasClose(p, id)
    ensures forall j :: DataOf(p + [Close(id)], j) == DataOf(p, j)
    ensures forall j :: HasClose(p + [Close(id)], j) == (HasClose(p, j) || j == id)
    ensures forall j :: HasClose(p, j) ==> UntilClose(p + [Close(id)], j) == UntilClose(p, j)
    ensures UntilClose(p + [Close(id)], id) == DataOf(p, id)
  {
    PipeGrows(p, Close(id), id);
    forall j: StreamId
      ensures DataOf(p + [Close(id)], j) == DataOf(p, j) && HasClose(p + [Close(id)], j) == (HasClose(p, j) || j == id)
      ensures HasClose(p, j) ==> UntilClose(p + [Close(id)], j) == UntilClose(p, j)
    {
      PipeGrows(p, Close(id), j);
    }
  }

  lemma SealFacts(x: Endpoint, z: Endpoint, id: StreamId)
    requires id in x.streams && x.streams[id].sealed.None?
    requires z.streams == x.streams[id := x.streams[id].(sealed := Some(x.streams[id].written))]
    ensures Sealed(x, id) == None
    ensures forall j :: Written(z, j) == Written(x, j)
    ensures forall j :: Sealed(z, j) == if j == id then Some(Written(x, j)) else Sealed(x, j)
  {
  }

  lemma CloseOut(x: Endpoint, z: Endpoint, p: seq<Frame>, y: Endpoint, id: StreamId)
    requires DirOk(x, p, y) && id in x.streams && id !in x.dialing && x.streams[id].sealed.None?
    requires z.role == x.role && z.ids == x.ids && z.dialing == x.dialing && z.owed == x.owed
    requires z.streams == x.streams[id := x.streams[id].(sealed := Some(x.streams[id].written))]
    ensures DirOk(z, p + [Close(id)], y)
  {
    hide DataOf, HasClose, UntilClose, Part, Written, Sealed, Opens, Accepting, Accepted, Eof;
    SealFacts(x, z, id);
    PipeClose(p, id);
    CloseSeals(x, z, p, y, id);
    CloseOpens(x, z, p, y, id);
    hide Seals;
  }

  lemma CloseSeals(x: Endpoint, z: Endpoint, p: seq<Frame>, y: Endpoint, id: StreamId)
    requires Seals(x, p, y) && Flow(x, p, y) && !HasClose(p, id) && Sealed(x, id) == None
    requires forall j :: HasClose(p + [Close(id)], j) == (HasClose(p, j) || j == id)
    requires forall j :: HasClose(p, j) ==> UntilClose(p + [Close(id)], j) == UntilClose(p, j)
    requires UntilClose(p + [Close(id)], id) == DataOf(p, id)
    requires forall j :: Sealed(z, j) == if j == id then Some(Written(x, j)) else Sealed(x, j)
    ensures Seals(z, p + [Close(id)], y)
  {
    hide DataOf, HasClose, UntilClose, Part, Written, Sealed, Accepting, Accepted, Eof;
  }

  lemma CloseOpens(x: Endpoint, z: Endpoint, p: seq<Frame>, y: Endpoint, id: StreamId)
    requires Opens(x, p, y) && !HasClose(p, id) && id !in x.dialing
    requires z.ids == x.ids && z.dialing == x.dialing
    requires forall j :: HasClose(p + [Close(id)], j) == (HasClose(p, j) || j == id)
    requires forall j :: HasClose(p, j) ==> UntilClose(p + [Close(id)], j) == UntilClose(p, j)
    requires UntilClose(p + [Close(id)], id) == DataOf(p, id)
    requires forall j :: DataOf(p + [Close(id)], j) == DataOf(p, j)
    requires forall j :: Written(z, j) == Written(x, j)
    requires forall j :: Sealed(z, j) == if j == id then Some(Written(x, j)) else Sealed(x, j)
    ensures Opens(z, p + [Close(id)], y)
  {
    hide DataOf, HasClose, UntilClose, Part, Written, Sealed;
  }

  lemma CloseWriteMap(x: Endpoint, q: seq<Frame>, id: StreamId)
    requires MapOk(x) && Enabled(x, q, CloseWrite(id))
    ensures MapOk(Step(x, q, CloseWrite(id)).0)
    ensures x.streams[id].localClosed && x.streams[id].sealed.None? && id !in x.dialing
  {
  }

  lemma CloseWriteKeeps(x: Endpoint, p: seq<Frame>, y: Endpoint, q: seq<Frame>, id: StreamId)
    requires Pair(x, p, y, q) && Enabled(x, q, CloseWrite(id))
    ensures Pair(Step(x, q, CloseWrite(id)).0, p + [Close(id)], y, q)
  {
    hide Names, Flow, Opens, Seals, IdsOk, StreamsOk, MapOk;
    var z := Step(x, q, CloseWrite(id)).0;
    IdsFrame(x, z);
    CloseWriteMap(x, q, id);
    StreamOf(x, id);
    StreamsPut(x, z, id, z.streams[id]);
    CloseOut(x, z, p, y, id);
    ReceiverFrame(y, q, x, z);
  }

  lemma ReplyOut(x: Endpoint, p: seq<Frame>, y: Endpoint, id: StreamId)
    requires DirOk(x, p, y) && x.owed == Some(id)
    ensures DirOk(x.(owed := None), p + [Reset(id)], y)
  {
    hide DataOf, HasClose, UntilClose, Part, Written, Sealed, Accepted, Eof, Accepting, Opens;
    SameStreams(x, x.(owed := None));
    PipeSame(p, Reset(id));
    ReplyOpens(x, x.(owed := None), p, y, id);
  }

  lemma ReplyOpens(x: Endpoint, z: Endpoint, p: seq<Frame>, y: Endpoint, id: StreamId)
    requires Opens(x, p, y) && id !in x.dialing
    requires z.ids == x.ids && z.dialing == x.dialing
    requires forall j :: Written(z, j) == Written(x, j) && Sealed(z, j) == Sealed(x, j)
    ensures Opens(z, p + [Reset(id)], y)
  {
    hide Written, Sealed, DataOf, HasClose, UntilClose;
    PipeSame(p, Reset(id));
  }

  lemma ReplyKeeps(x: Endpoint, p: seq<Frame>, y: Endpoint, q: seq<Frame>)
    requires Pair(x, p, y, q) && Enabled(x, q, Reply)
    ensures Pair(Step(x, q, Reply).0, p + [Reset(x.owed.value)], y, q)
  {
    hide Names, Flow, Opens, Seals, StreamOk;
    ReplyOut(x, p, y, x.owed.value);
    ReceiverFrame(y, q, x, x.(owed := None));
  }

  lemma StopKeeps(x: Endpoint, p: seq<Frame>, y: Endpoint, q: seq<Frame>)
    requires Pair(x, p, y, q)
    ensures Pair(Stop(x), p, y, q)
  {
    hide Names, Flow, Opens, Seals;
    SenderFrame(x, Stop(x), p, y);
    ReceiverFrame(y, q, x, Stop(x));
  }

  lemma ReadKeeps(x: Endpoint, p: seq<Frame>, y: Endpoint, q: seq<Frame>, id: StreamId, n: nat)
    requires Pair(x, p, y, q) && Enabled(x, q, Read(id, n))
    ensures Pair(Step(x, q, Read(id, n)).0, p, y, q)
  {
    hide Names, Flow, Opens, Seals, IdsOk, StreamsOk, StreamOk, MapOk;
    var z := Step(x, q, Read(id, n)).0;
    IdsFrame(x, z);
    MapFrame(x, z);
    StreamOf(x, id);
    StreamReads(x.streams[id], n);
    StreamsPut(x, z, id, z.streams[id]);
    SenderFrame(x, z, p, y);
    ReceiverFrame(y, q, x, z);
  }

  lemma AcceptKeeps(x: Endpoint, p: seq<Frame>, y: Endpoint, q: seq<Frame>)
    requires Pair(x, p, y, q) && Enabled(x, q, AcceptNext)
    ensures Pair(Step(x, q, AcceptNext).0, p, y, q)
  {
    hide Names, Flow, Opens, Seals, StreamOk;
    var z := Step(x, q, AcceptNext).0;
    SenderFrame(x, z, p, y);
    ReceiverFrame(y, q, x, z);
  }

  // -------------------------------------------------------------- deliveries

  /** What the dispatch of one frame may do to a receiver. */
  ghost predicate Took(r: Endpoint, f: Frame, z: Endpoint) {
    && z.role == r.role && z.ids == r.ids && z.dialing == r.dialing
    && r.streams.Keys <= z.streams.Keys
    && (forall id :: id in z.streams ==> id in r.streams || f == Open(id))
    && (forall j :: Accepting(z, j) ==>
          || (Accepting(r, j) && Accepted(z, j) == Accepted(r, j) + Part(f, j) && f != Close(j))
          || (f == Open(j) && Accepted(z, j) == []))
    && (forall j :: Eof(z, j) ==>
          Accepted(z, j) == Accepted(r, j) && (Eof(r, j) || (f == Close(j) && Accepting(r, j))))
    && (forall j :: TookBytes(r, f, z, j))
  }

  ghost predicate TookBytes(r: Endpoint, f: Frame, z: Endpoint, j: StreamId) {
    || Accepted(z, j) == Accepted(r, j)
    || Accepted(z, j) == []
    || (Accepting(r, j) && Accepted(z, j) == Accepted(r, j) + Part(f, j))
  }

  lemma ReceiveTakes(r: Endpoint, f: Frame)
    requires EndOk(r) && (f.Open? ==> f.id !in r.streams)
    ensures Took(r, f, Receive(r, f))
  {
    hide EndOk, Took, Part;
    match f
    case Open(id) => ReceiveOpenTakes(r, id);
    case Data(id, payload) => ReceiveDataTakes(r, id, payload);
    case _ => ReceiveCloseTakes(r, f);
  }

  lemma LiveIsKnown(r: Endpoint)
    requires EndOk(r)
    ensures r.live <= r.streams.Keys
  {
    hide IdsOk, StreamsOk;
  }

  lemma ReceiveCloseTakes(r: Endpoint, f: Frame)
    requires EndOk(r) && (f.Close? || f.Reset?)
    ensures Took(r, f, Receive(r, f))
  {
    hide IdsOk, StreamsOk, MapOk;
    forall j: StreamId ensures Accepted(r, j) + Part(f, j) == Accepted(r, j) { }
  }

  lemma ReceiveOpenTakes(r: Endpoint, id: StreamId)
    requires EndOk(r) && id !in r.streams
    ensures Took(r, Open(id), Receive(r, Open(id)))
  {
    hide Receive, IdsOk, StreamsOk, MapOk;
    LiveIsKnown(r);
    OpenOutcome(r, id);
    forall j: StreamId ensures Accepted(r, j) + Part(Open(id), j) == Accepted(r, j) { }
    hide Part;
    if Receive(r, Open(id)) != Admitted(r, id) {
      SameStreams(r, r.(owed := Some(id)));
    }
  }

  lemma ReceiveDataTakes(r: Endpoint, id: StreamId, payload: Bytes)
    requires EndOk(r)
    ensures Took(r, Data(id, payload), Receive(r, Data(id, payload)))
  {
    hide IdsOk, MapOk, Took, Receive, StreamsOk;
    DataOutcome(r, id, payload);
    var f := Data(id, payload);
    forall j: StreamId ensures Accepted(r, j) + Part(f, j) == Accepted(r, j) + (if j == id then payload else []) { }
    if !Accepting(r, id) {
      IgnoredTakes(r, id, payload);
    } else {
      StreamOf(r, id);
      var s := r.streams[id];
      if |s.buffer| + |payload| > MAX_BUFFERED {
        AcceptedTakes(r, id, payload, s.(failed := true, remoteClosed := true), Overflowed(r, id));
      } else {
        AcceptedTakes(r, id, payload, s.(buffer := s.buffer + payload, accepted := s.accepted + payload),
                      Buffered(r, id, payload));
      }
    }
  }

  lemma IgnoredTakes(r: Endpoint, id: StreamId, payload: Bytes)
    requires !Accepting(r, id)
    ensures Took(r, Data(id, payload), r)
  {
    forall j: StreamId | j != id ensures Accepted(r, j) + Part(Data(id, payload), j) == Accepted(r, j) { }
  }

  lemma AcceptedTakes(r: Endpoint, id: StreamId, payload: Bytes, t: Stream, z: Endpoint)
    requires Accepting(r, id) && z.streams == r.streams[id := t]
    requires z.role == r.role && z.ids == r.ids && z.dialing == r.dialing && z.live == r.live
    requires !r.streams[id].eof && !t.eof
    requires (t.remoteClosed && t.accepted == r.streams[id].accepted) || t.accepted == r.streams[id].accepted + payload
    ensures Took(r, Data(id, payload), z)
  {
    forall j: StreamId | j != id ensures Accepted(r, j) + Part(Data(id, payload), j) == Accepted(r, j) { }
  }

  /** The head of a pipe taken by a receiver keeps the direction right. */
  lemma TakeIn(s: Endpoint, q: seq<Frame>, r: Endpoint, z: Endpoint)
    requires DirOk(s, q, r) && q != [] && Took(r, q[0], z)
    ensures DirOk(s, q[1..], z)
  {
    TakeFlow(s, q, r, z);
    TakeOpens(s, q, r, z);
    TakeSeals(s, q, r, z);
    hide Flow, Opens, Seals, Accepting, Accepted, Eof, Part;
    assert forall i :: 0 <= i < |q[1..]| ==> q[1..][i] == q[i + 1];
  }

  lemma FlowStays(s: Endpoint, q: seq<Frame>, r: Endpoint, z: Endpoint, j: StreamId)
    requires Flow(s, q, r) && q != [] && Took(r, q[0], z)
    requires q[0] == Open(j) ==> Written(s, j) == DataOf(q, j)
    ensures j !in s.streams ==> DataOf(q[1..], j) == []
    ensures Accepting(z, j) ==> Written(s, j) == Accepted(z, j) + DataOf(q[1..], j)
    ensures Accepted(z, j) <= Written(s, j)
  {
    hide Accepting, Accepted, Eof, Written, DataOf, Part;
    PipeHead(q, j);
    assert TookBytes(r, q[0], z, j);
    Regroup(Accepted(r, j), Part(q[0], j), DataOf(q[1..], j));
  }

  lemma Regroup(a: Bytes, b: Bytes, c: Bytes)
    ensures (a + b) + c == a + (b + c)
    ensures a + b <= a + (b + c) && a <= a + (b + c)
    ensures [] + c == c && a + [] == a && [] <= a
    ensures b == [] ==> b + c == c
    ensures b + c == [] ==> c == []
  {
    if b + c == [] { assert |b + c| == |b| + |c|; }
  }

  lemma TakeFlow(s: Endpoint, q: seq<Frame>, r: Endpoint, z: Endpoint)
    requires DirOk(s, q, r) && q != [] && Took(r, q[0], z)
    ensures Flow(s, q[1..], z)
  {
    hide Seals, Names, Accepting, Accepted, Eof, Written, Took, DataOf, HasClose, UntilClose, Sealed;
    assert q[0].Open? ==> Written(s, q[0].id) == DataOf(q, q[0].id);
    hide Opens;
    forall j: StreamId
      ensures j !in s.streams ==> DataOf(q[1..], j) == []
      ensures Accepting(z, j) ==> Written(s, j) == Accepted(z, j) + DataOf(q[1..], j)
      ensures Accepted(z, j) <= Written(s, j)
    {
      FlowStays(s, q, r, z, j);
    }
  }

  lemma TakeOpens(s: Endpoint, q: seq<Frame>, r: Endpoint, z: Endpoint)
    requires Opens(s, q, r) && q != [] && Took(r, q[0], z)
    ensures Opens(s, q[1..], z)
  {
    hide Accepting, Accepted, Eof, Written, Sealed;
    var t := q[1..];
    assert forall i :: 0 <= i < |t| ==> t[i] == q[i + 1];
    forall i | 0 <= i < |t| && t[i].Open?
      ensures t[i].id !in z.streams && DataOf(t, t[i].id) == DataOf(q, t[i].id)
      ensures HasClose(t, t[i].id) == HasClose(q, t[i].id) && UntilClose(t, t[i].id) == UntilClose(q, t[i].id)
    {
      assert q[i + 1].Open?;
      assert q[0].id != t[i].id;
    }
    hide DataOf, HasClose, UntilClose;
  }

  /** The head of a pipe and one stream's bytes. */
  lemma PipeHead(q: seq<Frame>, j: StreamId)
    requires q != []
    ensures HasClose(q, j) == (q[0] == Close(j) || HasClose(q[1..], j))
    ensures DataOf(q, j) == Part(q[0], j) + DataOf(q[1..], j)
    ensures UntilClose(q, j) == if q[0] == Close(j) then [] else Part(q[0], j) + UntilClose(q[1..], j)
    ensures q[0].Open? ==> Part(q[0], j) == []
  {
  }

  lemma SealStays(s: Endpoint, q: seq<Frame>, r: Endpoint, z: Endpoint, j: StreamId)
    requires Seals(s, q, r) && Opens(s, q, r) && q != [] && Took(r, q[0], z)
    requires Accepting(z, j) && HasClose(q[1..], j)
    ensures Sealed(s, j) == Some(Accepted(z, j) + UntilClose(q[1..], j))
  {
    hide Accepting, Accepted, Eof, Written, Sealed, DataOf, HasClose, UntilClose, Part, TookBytes;
    PipeHead(q, j);
    if Accepting(r, j) && Accepted(z, j) == Accepted(r, j) + Part(q[0], j) && q[0] != Close(j) {
      assert (Accepted(r, j) + Part(q[0], j)) + UntilClose(q[1..], j)
             == Accepted(r, j) + (Part(q[0], j) + UntilClose(q[1..], j));
    } else {
      assert q[0] == Open(j) && Accepted(z, j) == [];
      assert [] + UntilClose(q[1..], j) == UntilClose(q[1..], j);
    }
  }

  lemma EofStays(s: Endpoint, q: seq<Frame>, r: Endpoint, z: Endpoint, j: StreamId)
    requires Seals(s, q, r) && q != [] && Took(r, q[0], z) && Eof(z, j)
    ensures Sealed(s, j) == Some(Accepted(z, j))
  {
    hide Accepting, Accepted, Eof, Written, Sealed, DataOf, HasClose, UntilClose, Part, TookBytes;
    PipeHead(q, j);
    assert Accepted(r, j) + [] == Accepted(r, j);
  }

  lemma TakeSeals(s: Endpoint, q: seq<Frame>, r: Endpoint, z: Endpoint)
    requires Seals(s, q, r) && Opens(s, q, r) && q != [] && Took(r, q[0], z)
    ensures Seals(s, q[1..], z)
  {
    hide Accepting, Accepted, Eof, Written, Sealed, DataOf, HasClose, UntilClose, Opens, Took;
    forall j: StreamId ensures HasClose(q[1..], j) ==> HasClose(q, j) { PipeHead(q, j); }
    forall j | Accepting(z, j) && HasClose(q[1..], j)
      ensures Sealed(s, j) == Some(Accepted(z, j) + UntilClose(q[1..], j))
    {
      SealStays(s, q, r, z, j);
    }
    forall j | Eof(z, j) ensures Sealed(s, j) == Some(Accepted(z, j)) { EofStays(s, q, r, z, j); }
  }

  lemma MemberParity(x: Endpoint, id: StreamId)
    requires IdsOk(x) && id in x.ids
    ensures id % 2 == x.role % 2
  {
    var i :| 0 <= i < |x.ids| && x.ids[i] == id;
    IdParity(x.role, i);
  }

  lemma ReceiveEnd(r: Endpoint, f: Frame)
    requires EndOk(r) && !r.done
    requires f.Open? ==> f.id !in r.streams && f.id % 2 != r.role % 2
    ensures EndOk(Receive(r, f))
  {
    match f
    case Open(id) => ReceiveOpenEnd(r, id);
    case Data(id, payload) => ReceiveDataEnd(r, id, payload);
    case Close(id) => if id in r.live && id in r.streams { RemoteCloseEnd(r, id, false); }
    case Reset(id) => if id in r.live && id in r.streams { RemoteCloseEnd(r, id, true); }
  }

  lemma NewStreamOk()
    ensures StreamOk(NEW_STREAM)
  {
  }

  function Admitted(r: Endpoint, id: StreamId): Endpoint {
    Put(r, id, NEW_STREAM).(live := r.live + {id}, queue := r.queue + [id])
  }

  lemma OpenOutcome(r: Endpoint, id: StreamId)
    requires id !in r.live
    ensures Receive(r, Open(id)) == Admitted(r, id) || Receive(r, Open(id)) == r.(owed := Some(id))
  {
    hide Stop;
  }

  lemma AdmitEnd(r: Endpoint, id: StreamId)
    requires EndOk(r) && id !in r.streams && id % 2 != r.role % 2
    ensures EndOk(Admitted(r, id))
  {
    hide IdsOk, StreamsOk, StreamOk;
    var z := Admitted(r, id);
    IdsFrame(r, z);
    NewStreamOk();
    StreamsPut(r, z, id, NEW_STREAM);
  }

  lemma OweEnd(r: Endpoint, id: StreamId)
    requires EndOk(r)
    ensures EndOk(r.(owed := Some(id)))
  {
    hide IdsOk, StreamsOk, StreamOk;
    IdsFrame(r, r.(owed := Some(id)));
    SameStreamsOk(r, r.(owed := Some(id)));
  }

  lemma ReceiveOpenEnd(r: Endpoint, id: StreamId)
    requires EndOk(r) && id !in r.streams && id % 2 != r.role % 2
    ensures EndOk(Receive(r, Open(id)))
  {
    hide Receive, IdsOk, StreamsOk, MapOk;
    LiveIsKnown(r);
    OpenOutcome(r, id);
    if Receive(r, Open(id)) == Admitted(r, id) { AdmitEnd(r, id); } else { OweEnd(r, id); }
  }

  /** The three outcomes of a data frame. */
  lemma DataOutcome(r: Endpoint, id: StreamId, payload: Bytes)
    ensures var z := Receive(r, Data(id, payload));
            || (z == r && !Accepting(r, id))
            || (id in r.live && id in r.streams && !r.streams[id].localClosed && !r.streams[id].remoteClosed
                && if |r.streams[id].buffer| + |payload| > MAX_BUFFERED then z == Overflowed(r, id)
                   else z == Buffered(r, id, payload))
  {
  }

  function Overflowed(r: Endpoint, id: StreamId): Endpoint
    requires id in r.streams
  {
    Put(r, id, r.streams[id].(failed := true, remoteClosed := true)).(owed := Some(id))
  }

  function Buffered(r: Endpoint, id: StreamId, payload: Bytes): Endpoint
    requires id in r.streams
  {
    var s := r.streams[id];
    Put(r, id, s.(buffer := s.buffer + payload, accepted := s.accepted + payload))
  }

  lemma BufferedEnd(r: Endpoint, id: StreamId, payload: Bytes)
    requires EndOk(r) && id in r.streams && !r.streams[id].remoteClosed
    requires |r.streams[id].buffer| + |payload| <= MAX_BUFFERED
    ensures EndOk(Buffered(r, id, payload))
  {
    hide IdsOk, StreamsOk, StreamOk, MapOk;
    var z := Buffered(r, id, payload);
    IdsFrame(r, z);
    MapFrame(r, z);
    StreamOf(r, id);
    StreamTakes(r.streams[id], payload);
    StreamsPut(r, z, id, z.streams[id]);
  }

  lemma OverflowedEnd(r: Endpoint, id: StreamId)
    requires EndOk(r) && id in r.streams && id in r.live && !r.streams[id].localClosed
    ensures EndOk(Overflowed(r, id))
  {
    hide IdsOk, StreamsOk;
    var z := Overflowed(r, id);
    IdsFrame(r, z);
    StreamOf(r, id);
    StreamsPut(r, z, id, z.streams[id]);
  }

  lemma ReceiveDataEnd(r: Endpoint, id: StreamId, payload: Bytes)
    requires EndOk(r)
    ensures EndOk(Receive(r, Data(id, payload)))
  {
    hide Receive, IdsOk, StreamsOk, MapOk;
    DataOutcome(r, id, payload);
    if Receive(r, Data(id, payload)) != r {
      if |r.streams[id].buffer| + |payload| > MAX_BUFFERED { OverflowedEnd(r, id); }
      else { BufferedEnd(r, id, payload); }
    }
  }

  lemma RemoteCloseMap(r: Endpoint, id: StreamId, failed: bool)
    requires MapOk(r) && id in r.streams && id in r.live
    ensures MapOk(RemoteClose(r, id, failed))
  {
  }

  lemma RemoteCloseEnd(r: Endpoint, id: StreamId, failed: bool)
    requires EndOk(r) && id in r.streams && id in r.live
    ensures EndOk(RemoteClose(r, id, failed))
  {
    hide IdsOk, StreamsOk, MapOk;
    var z := RemoteClose(r, id, failed);
    IdsFrame(r, z);
    RemoteCloseMap(r, id, failed);
    StreamOf(r, id);
    StreamsPut(r, z, id, z.streams[id]);
  }

  /** The owed reset of a dispatch is for a stream of this end or for a
      rejected stream of the peer, never for a dial in progress. */
  lemma ReceiveOwes(s: Endpoint, q: seq<Frame>, r: Endpoint, p: seq<Frame>)
    requires Pair(r, p, s, q) && q != [] && r.owed.None?
    ensures var z := Receive(r, q[0]);
            z.owed.Some? ==> z.owed.value !in r.dialing
                             && (z.owed.value in z.streams || z.owed.value % 2 == s.role % 2)
  {
    hide Flow, Seals, StreamOk;
    if q[0].Open? {
      MemberParity(s, q[0].id);
    }
  }

  lemma DeliverKeeps(x: Endpoint, p: seq<Frame>, y: Endpoint, q: seq<Frame>)
    requires Pair(x, p, y, q) && Enabled(x, q, Deliver)
    ensures Pair(Receive(x, q[0]), p, y, q[1..])
  {
    OpenHead(y, q, x);
    ReceiveOwes(y, q, x, p);
    hide Names, Flow, Opens, Seals, StreamOk, IdsOk, MapOk;
    var z := Receive(x, q[0]);
    ReceiveTakes(x, q[0]);
    TakeIn(y, q, x, z);
    ReceiveEnd(x, q[0]);
    ReceiveSends(x, q[0]);
    SenderFrame(x, z, p, y);
  }

  lemma OpenHead(s: Endpoint, q: seq<Frame>, r: Endpoint)
    requires EndOk(s) && EndOk(r) && DirOk(s, q, r) && q != []
    ensures q[0].Open? ==> q[0].id !in r.streams && q[0].id % 2 != r.role % 2
  {
    hide Flow, Seals, StreamOk, MapOk;
    if q[0].Open? { MemberParity(s, q[0].id); }
  }

  lemma ReceiveSends(r: Endpoint, f: Frame)
    requires EndOk(r) && (f.Open? ==> f.id !in r.streams)
    ensures var z := Receive(r, f);
            (forall id :: Written(z, id) == Written(r, id) && Sealed(z, id) == Sealed(r, id))
            && (z.owed == r.owed || z.owed.Some?)
  {
    hide IdsOk, StreamOk;
  }

  // -------------------------------------------------------------- two ends

  /** The host, the runner and the two pipes between them. */
  datatype Link = Link(host: Endpoint, runner: Endpoint, down: seq<Frame>, up: seq<Frame>)

  function InitialLink(): Link { Link(NewEndpoint(1), NewEndpoint(2), [], []) }

  /** A move of one of the two ends. */
  datatype Turn = Turn(byHost: bool, m: Move)

  predicate CanTurn(l: Link, t: Turn) {
    if t.byHost then Enabled(l.host, l.up, t.m) else Enabled(l.runner, l.down, t.m)
  }

  function Rest(q: seq<Frame>, m: Move): seq<Frame> { if m.Deliver? && q != [] then q[1..] else q }

  function Take(l: Link, t: Turn): Link
    requires CanTurn(l, t)
  {
    if t.byHost then
      var (x, out) := Step(l.host, l.up, t.m);
      Link(x, l.runner, l.down + out, Rest(l.up, t.m))
    else
      var (x, out) := Step(l.runner, l.down, t.m);
      Link(l.host, x, Rest(l.down, t.m), l.up + out)
  }

  ghost predicate LinkOk(l: Link) { Pair(l.host, l.down, l.runner, l.up) }

  lemma PairSwaps(x: Endpoint, p: seq<Frame>, y: Endpoint, q: seq<Frame>)
    requires Pair(x, p, y, q)
    ensures Pair(y, q, x, p)
  {
  }

  lemma MoveKeeps(x: Endpoint, p: seq<Frame>, y: Endpoint, q: seq<Frame>, m: Move)
    requires Pair(x, p, y, q) && Enabled(x, q, m)
    ensures Pair(Step(x, q, m).0, p + Step(x, q, m).1, y, Rest(q, m))
  {
    hide Pair;
    assert p + [] == p;
    match m
    case DialStart => DialStartKeeps(x, p, y, q);
    case DialOpen(id) => DialOpenKeeps(x, p, y, q, id);
    case WriteChunk(id, chunk) => WriteKeeps(x, p, y, q, id, chunk);
    case CloseLocal(id) => CloseLocalKeeps(x, p, y, q, id);
    case CloseWrite(id) => CloseWriteKeeps(x, p, y, q, id);
    case Deliver => DeliverKeeps(x, p, y, q);
    case Reply => ReplyKeeps(x, p, y, q);
    case AcceptNext => AcceptKeeps(x, p, y, q);
    case Read(id, n) => ReadKeeps(x, p, y, q, id, n);
    case Shutdown => StopKeeps(x, p, y, q);
  }

  lemma TakeKeeps(l: Link, t: Turn)
    requires LinkOk(l) && CanTurn(l, t)
    ensures LinkOk(Take(l, t))
  {
    hide Pair, Step, Enabled;
    if t.byHost {
      MoveKeeps(l.host, l.down, l.runner, l.up, t.m);
    } else {
      PairSwaps(l.host, l.down, l.runner, l.up);
      MoveKeeps(l.runner, l.up, l.host, l.down, t.m);
      PairSwaps(Take(l, t).runner, Take(l, t).up, Take(l, t).host, Take(l, t).down);
    }
  }

  ghost predicate Legal(run: seq<Turn>)
    decreases |run|, 0
  {
    run == [] || (Legal(run[..|run| - 1]) && CanTurn(After(run[..|run| - 1]), run[|run| - 1]))
  }

  ghost function After(run: seq<Turn>): Link
    requires Legal(run)
    decreases |run|, 1
  {
    if run == [] then InitialLink() else Take(After(run[..|run| - 1]), run[|run| - 1])
  }

  lemma InitialOk()
    ensures LinkOk(InitialLink())
  {
    InitialDirection(1, 2);
    InitialDirection(2, 1);
    hide DirOk, EndOk;
  }

  lemma InitialDirection(a: nat, b: nat)
    requires (a == 1 || a == 2) && a + b == 3
    ensures EndOk(NewEndpoint(a)) && DirOk(NewEndpoint(a), [], NewEndpoint(b))
  {
  }

  lemma {:induction false} ReachableOk(run: seq<Turn>)
    requires Legal(run)
    ensures LinkOk(After(run))
  {
    hide LinkOk, CanTurn, Take, InitialLink;
    if run == [] {
      InitialOk();
    } else {
      ReachableOk(run[..|run| - 1]);
      TakeKeeps(After(run[..|run| - 1]), run[|run| - 1]);
    }
  }

  lemma StepFits(x: Endpoint, incoming: seq<Frame>, m: Move)
    requires Enabled(x, incoming, m)
    ensures AllFit(Step(x, incoming, m).1)
  {
    hide Receive, Stop, Put;
  }

  lemma FitsJoin(p: seq<Frame>, out: seq<Frame>, m: Move)
    requires AllFit(p) && AllFit(out)
    ensures AllFit(p + out) && AllFit(Rest(p, m))
  {
  }

  lemma {:induction false} PipesFit(run: seq<Turn>)
    requires Legal(run)
    ensures AllFit(After(run).down) && AllFit(After(run).up)
  {
    if run != [] {
      hide AllFit, Enabled, Step, Rest;
      var l, t := After(run[..|run| - 1]), run[|run| - 1];
      PipesFit(run[..|run| - 1]);
      if t.byHost {
        StepFits(l.host, l.up, t.m);
        FitsJoin(l.down, Step(l.host, l.up, t.m).1, t.m);
        FitsJoin(l.up, [], t.m);
      } else {
        StepFits(l.runner, l.down, t.m);
        FitsJoin(l.up, Step(l.runner, l.down, t.m).1, t.m);
        FitsJoin(l.down, [], t.m);
      }
    }
  }

  // ------------------------------------------------------------ main results

  /** The frame pipes stand for byte streams: in every reachable state the
      bytes under way in either direction parse to exactly the frames written,
      in order, with nothing left over. */
  lemma PipesParse(run: seq<Turn>)
    requires Legal(run)
    ensures AllFit(After(run).down) && AllFit(After(run).up)
    ensures Parse(EncodeAll(After(run).down)) == Parsed(After(run).down, More, [])
    ensures Parse(EncodeAll(After(run).up)) == Parsed(After(run).up, More, [])
  {
    PipesFit(run);
    hide Legal, After, AllFit, EncodeAll;
    WholeParses(After(run).down);
    WholeParses(After(run).up);
  }

  lemma WholeParses(frames: seq<Frame>)
    requires AllFit(frames)
    ensures Parse(EncodeAll(frames)) == Parsed(frames, More, [])
  {
    hide AllFit, EncodeAll;
    ParseWritten(frames, []);
    assert EncodeAll(frames) + [] == EncodeAll(frames) && frames + [] == frames;
  }

  /** One of the two ends. */
  function End(l: Link, host: bool): Endpoint { if host then l.host else l.runner }

  /** The frames under way from that end. */
  function Pipe(l: Link, host: bool): seq<Frame> { if host then l.down else l.up }

  /** In every reachable state and in either direction. A stream whose receiver
      still accepts: the bytes written are those read, then those buffered, then
      those under way. One whose open frame has not arrived: they are all under
      way. Any stream, closed, refused or overflowed too: what was read and what
      is buffered are the first bytes written. */
  lemma BytesConserved(run: seq<Turn>, host: bool, id: StreamId)
    requires Legal(run)
    ensures var x, y, p := End(After(run), host), End(After(run), !host), Pipe(After(run), host);
            && (Accepting(y, id) ==> Written(x, id) == y.streams[id].read + y.streams[id].buffer + DataOf(p, id))
            && (Open(id) in p ==> id !in y.streams && Written(x, id) == DataOf(p, id))
            && (id in x.dialing ==> id !in y.streams && Written(x, id) == [] && DataOf(p, id) == [])
            && (id in y.streams ==> y.streams[id].read + y.streams[id].buffer <= Written(x, id))
  {
    ReachableOk(run);
    var x, y, p := End(After(run), host), End(After(run), !host), Pipe(After(run), host);
    assert Pair(x, p, y, Pipe(After(run), !host)) by {
      PairSwaps(After(run).host, After(run).down, After(run).runner, After(run).up);
    }
    hide Legal, After;
    Conserved(x, p, y, Pipe(After(run), !host), id);
  }

  lemma Conserved(x: Endpoint, p: seq<Frame>, y: Endpoint, q: seq<Frame>, id: StreamId)
    requires Pair(x, p, y, q)
    ensures Accepting(y, id) ==> Written(x, id) == y.streams[id].read + y.streams[id].buffer + DataOf(p, id)
    ensures Open(id) in p ==> id !in y.streams && Written(x, id) == DataOf(p, id)
    ensures id in x.dialing ==> id !in y.streams && Written(x, id) == [] && DataOf(p, id) == []
    ensures id in y.streams ==> y.streams[id].read + y.streams[id].buffer <= Written(x, id)
  {
    hide IdsOk, MapOk, Names, Seals, DataOf, HasClose, UntilClose, Written;
    if id in y.streams { StreamOf(y, id); }
    if id in x.dialing { NoFrames(p, id); }
  }

  /** A reader that reaches the end of a stream its peer closed has been given
      every byte that was written before the close frame. */
  lemma EndOfFileIsComplete(run: seq<Turn>, host: bool, id: StreamId)
    requires Legal(run)
    requires var x := End(After(run), host);
             id in x.streams && x.streams[id].eof && x.streams[id].buffer == []
    ensures Sealed(End(After(run), !host), id) == Some(End(After(run), host).streams[id].read)
  {
    hide IdsOk, MapOk, Names, Opens, Flow, Enabled, CanTurn, Take;
    ReachableOk(run);
    var s := End(After(run), host).streams[id];
    assert StreamOk(s) && Eof(End(After(run), host), id);
    assert s.read + [] == s.read;
  }

  /** No open frame ever arrives for an id its receiver knows, and the
      shutdown for duplicate ids never happens, as long as neither side dials
      more than 2^31 times. */
  lemma NoDuplicateIds(run: seq<Turn>)
    requires Legal(run)
    ensures var l := After(run);
            && !l.host.duplicate && !l.runner.duplicate
            && (forall i :: 0 <= i < |l.down| && l.down[i].Open? ==>
                  l.down[i].id % 2 == 1 && l.down[i].id !in l.runner.streams)
            && (forall i :: 0 <= i < |l.up| && l.up[i].Open? ==>
                  l.up[i].id % 2 == 0 && l.up[i].id !in l.host.streams)
  {
    hide StreamsOk, MapOk, Flow, Seals, Enabled, CanTurn, Take;
    RolesFixed(run);
    ReachableOk(run);
    var l := After(run);
    forall i | 0 <= i < |l.down| && l.down[i].Open? ensures l.down[i].id % 2 == 1 {
      MemberParity(l.host, l.down[i].id);
    }
    forall i | 0 <= i < |l.up| && l.up[i].Open? ensures l.up[i].id % 2 == 0 {
      MemberParity(l.runner, l.up[i].id);
    }
  }

  lemma {:induction false} RolesFixed(run: seq<Turn>)
    requires Legal(run)
    ensures After(run).host.role == 1 && After(run).runner.role == 2
  {
    if run != [] {
      RolesFixed(run[..|run| - 1]);
      StepRole(After(run[..|run| - 1]), run[|run| - 1]);
    }
  }

  lemma StepRole(l: Link, t: Turn)
    requires CanTurn(l, t)
    ensures Take(l, t).host.role == l.host.role && Take(l, t).runner.role == l.runner.role
  {
    hide Receive, Stop;
    var x := if t.byHost then l.host else l.runner;
    StopRole(x);
    if t.m.Deliver? { ReceiveRole(x, (if t.byHost then l.up else l.down)[0]); }
  }

  lemma ReceiveRole(x: Endpoint, f: Frame)
    ensures Receive(x, f).role == x.role
  {
  }

  lemma StopRole(x: Endpoint)
    ensures Stop(x).role == x.role
  {
  }

  /** A stream whose two sides have both closed is out of the map, whichever
      closed first and also after an overflow, unless a close that saw the
      remote side closed has still to write its frame. */
  lemma ClosedStreamsLeave(run: seq<Turn>, host: bool, id: StreamId)
    requires Legal(run)
    requires id in End(After(run), host).streams && id !in End(After(run), host).closing
    ensures var x := End(After(run), host);
            && (x.streams[id].localClosed && x.streams[id].remoteClosed ==> id !in x.live)
            && (!x.done && id !in x.live ==> x.streams[id].localClosed && x.streams[id].remoteClosed)
  {
    hide StreamsOk, IdsOk, Names, Flow, Opens, Seals, Enabled, CanTurn, Take;
    ReachableOk(run);
  }
}
