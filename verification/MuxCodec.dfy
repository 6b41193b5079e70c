/** The frame format of the stdio multiplexer, and its reading and writing
    loops. */
module MuxCodec {
  import opened Protocol

  type Byte = b: int | 0 <= b < 256
  type Bytes = seq<Byte>
  type StreamId = n: int | 0 <= n < 0x1_0000_0000

  const MAX_FRAME := 0x10_0000
  const HEADER := 9

  datatype Frame = Open(id: StreamId) | Data(id: StreamId, payload: Bytes) | Close(id: StreamId) | Reset(id: StreamId)

  predicate Fits(f: Frame) { f.Data? ==> |f.payload| <= MAX_FRAME }

  function KindOf(f: Frame): Byte {
    match f case Open(_) => 1 case Data(_, _) => 2 case Close(_) => 3 case Reset(_) => 4
  }

  function PayloadOf(f: Frame): Bytes { if f.Data? then f.payload else [] }

  /** The low byte of a number. */
  function Low(n: nat): Byte { n % 0x100 }

  function PutUint32(n: StreamId): (b: Bytes)
    ensures |b| == 4
  {
    [Low(n / 0x100_0000), Low(n / 0x1_0000), Low(n / 0x100), Low(n)]
  }

  function Uint32(b: Bytes): StreamId
    requires |b| == 4
  {
    (b[0] as int) * 0x100_0000 + (b[1] as int) * 0x1_0000 + (b[2] as int) * 0x100 + b[3] as int
  }

  lemma Uint32RoundTrip(n: StreamId, b: Bytes)
    requires |b| == 4
    ensures Uint32(PutUint32(n)) == n
    ensures PutUint32(Uint32(b)) == b
  {
    var m: int := Uint32(b);
    var n: int := n;
    var b0: int, b1: int, b2: int := b[0], b[1], b[2];
    assert m / 0x100 == b0 * 0x1_0000 + b1 * 0x100 + b2;
    assert m / 0x1_0000 == b0 * 0x100 + b1;
    assert m / 0x100_0000 == b0;
    assert n / 0x1_0000 == n / 0x100_0000 * 0x100 + n / 0x1_0000 % 0x100;
    assert n / 0x100 == n / 0x1_0000 * 0x100 + n / 0x100 % 0x100;
  }

  function Encode(f: Frame): Bytes
    requires Fits(f)
  {
    [KindOf(f)] + PutUint32(f.id) + PutUint32(|PayloadOf(f)|) + PayloadOf(f)
  }

  predicate AllFit(frames: seq<Frame>) { forall i :: 0 <= i < |frames| ==> Fits(frames[i]) }

  function EncodeAll(frames: seq<Frame>): Bytes
    requires AllFit(frames)
  {
    if frames == [] then [] else Encode(frames[0]) + EncodeAll(frames[1..])
  }

  datatype Fault = TooLarge | InvalidOpen | UnknownKind

  /** One round of the read loop: it needs more bytes, has a frame, or gives
      up on the connection. */
  datatype Round = More | Got(f: Frame, rest: Bytes) | Bad(fault: Fault)

  function ReadOne(b: Bytes): Round {
    if |b| < HEADER then More
    else
      var kind, id, size := b[0], Uint32(b[1..5]), Uint32(b[5..9]);
      if size > MAX_FRAME then Bad(TooLarge)
      else if |b| < HEADER + size then More
      else
        var payload, rest := b[HEADER..HEADER + size], b[HEADER + size..];
        if kind == 1 then (if size != 0 then Bad(InvalidOpen) else Got(Open(id), rest))
        else if kind == 2 then Got(Data(id, payload), rest)
        else if kind == 3 then Got(Close(id), rest)
        else if kind == 4 then Got(Reset(id), rest)
        else Bad(UnknownKind)
  }

  datatype Parsed = Parsed(frames: seq<Frame>, end: Round, left: Bytes)

  /** Everything the read loop makes of the bytes received so far. */
  function Parse(b: Bytes): Parsed
    decreases |b|
  {
    match ReadOne(b)
    case Got(f, rest) => var p := Parse(rest); p.(frames := [f] + p.frames)
    case end => Parsed([], end, b)
  }

  /** The read loop over the bytes received so far. */
  method ReadLoop(b: Bytes) returns (p: Parsed)
    ensures p == Parse(b)
  {
    var frames: seq<Frame> := [];
    var rest := b;
    while true
      invariant Parse(b) == Parse(rest).(frames := frames + Parse(rest).frames)
      decreases |rest|
    {
      var round := ReadOne(rest);
      if !round.Got? {
        assert frames + [] == frames;
        return Parsed(frames, round, rest);
      }
      assert frames + ([round.f] + Parse(round.rest).frames) == (frames + [round.f]) + Parse(round.rest).frames;
      frames := frames + [round.f];
      rest := round.rest;
    }
  }

  /** A written frame is read back, and what follows it is left alone. */
  lemma ReadBack(f: Frame, tail: Bytes)
    requires Fits(f)
    ensures ReadOne(Encode(f) + tail) == Got(f, tail)
  {
    var b := Encode(f) + tail;
    var size := |PayloadOf(f)|;
    Uint32RoundTrip(f.id, PutUint32(f.id));
    Uint32RoundTrip(size, PutUint32(size));
    assert b[1..5] == PutUint32(f.id) && b[5..9] == PutUint32(size);
    assert b[HEADER..HEADER + size] == PayloadOf(f);
    assert b[HEADER + size..] == tail;
  }

  /** A frame cut short is waited for and never misread. */
  lemma CutShort(f: Frame, n: nat)
    requires Fits(f) && n < |Encode(f)|
    ensures ReadOne(Encode(f)[..n]) == More
  {
    if n >= HEADER {
      var b := Encode(f)[..n];
      Uint32RoundTrip(|PayloadOf(f)|, PutUint32(|PayloadOf(f)|));
      assert b[5..9] == PutUint32(|PayloadOf(f)|);
    }
  }

  /** Parsing the written bytes gives back the written frames. */
  lemma {:induction false} ParseWritten(frames: seq<Frame>, tail: Bytes)
    requires AllFit(frames)
    ensures Parse(EncodeAll(frames) + tail) == Parse(tail).(frames := frames + Parse(tail).frames)
  {
    hide ReadOne, Encode, AllFit, Fits;
    if frames == [] {
      assert EncodeAll(frames) + tail == tail;
      assert frames + Parse(tail).frames == Parse(tail).frames;
    } else {
      TailFits(frames);
      var b := EncodeAll(frames) + tail;
      var rest := EncodeAll(frames[1..]) + tail;
      assert b == Encode(frames[0]) + rest;
      ReadBack(frames[0], rest);
      assert Parse(b) == Parse(rest).(frames := [frames[0]] + Parse(rest).frames);
      ParseWritten(frames[1..], tail);
      assert [frames[0]] + (frames[1..] + Parse(tail).frames) == frames + Parse(tail).frames;
    }
  }

  lemma TailFits(frames: seq<Frame>)
    requires AllFit(frames) && frames != []
    ensures Fits(frames[0]) && AllFit(frames[1..])
  {
  }

  /** However the transport splits the bytes, what has arrived parses to the
      frames that arrived whole, and the reader waits for the next one. */
  lemma PartialRead(frames: seq<Frame>, next: Frame, n: nat)
    requires AllFit(frames) && Fits(next) && n < |Encode(next)|
    ensures var b := EncodeAll(frames) + Encode(next)[..n];
            Parse(b).frames == frames && Parse(b).end == More
  {
    CutShort(next, n);
    ParseWritten(frames, Encode(next)[..n]);
    assert frames + [] == frames;
  }

  /** Whatever parses to a frame with no payload dropped was its encoding. */
  lemma ReadIsEncoded(b: Bytes)
    requires ReadOne(b).Got?
    requires Uint32(b[5..9]) == |PayloadOf(ReadOne(b).f)|
    ensures Fits(ReadOne(b).f) && b == Encode(ReadOne(b).f) + ReadOne(b).rest
  {
    var f, rest := ReadOne(b).f, ReadOne(b).rest;
    Uint32RoundTrip(f.id, b[1..5]);
    Uint32RoundTrip(|PayloadOf(f)|, b[5..9]);
    assert b == b[..1] + b[1..5] + b[5..9] + b[HEADER..HEADER + |PayloadOf(f)|] + rest;
  }

  /** The reader gives up exactly on a complete header that announces too much,
      and on a complete frame of an unknown kind or an open frame with a payload;
      it waits exactly while header or payload is incomplete. */
  lemma ReaderGivesUpIff(b: Bytes)
    ensures var size := if |b| >= HEADER then Uint32(b[5..9]) else 0;
            var whole := |b| >= HEADER && size <= MAX_FRAME && |b| >= HEADER + size;
            && (ReadOne(b) == Bad(TooLarge) <==> size > MAX_FRAME)
            && (ReadOne(b) == Bad(InvalidOpen) <==> whole && b[0] == 1 && size > 0)
            && (ReadOne(b) == Bad(UnknownKind) <==> whole && b[0] !in {1, 2, 3, 4})
            && (ReadOne(b) == More <==> !whole && size <= MAX_FRAME)
            && (ReadOne(b).Got? ==> ReadOne(b).rest == b[HEADER + size..] && KindOf(ReadOne(b).f) == b[0])
  {
  }

  // ----------------------------------------------------------------- writes

  /** The chunks a write of any length is cut into. */
  function Chunks(p: Bytes): (r: seq<Bytes>)
    ensures forall i :: 0 <= i < |r| ==> 0 < |r[i]| <= MAX_FRAME
    ensures forall i :: 0 <= i < |r| - 1 ==> |r[i]| == MAX_FRAME
    decreases |p|
  {
    if p == [] then []
    else if |p| <= MAX_FRAME then [p]
    else [p[..MAX_FRAME]] + Chunks(p[MAX_FRAME..])
  }

  function Joined(parts: seq<Bytes>): Bytes {
    if parts == [] then [] else parts[0] + Joined(parts[1..])
  }

  lemma {:induction false} ChunksJoin(p: Bytes)
    ensures Joined(Chunks(p)) == p
    decreases |p|
  {
    if 0 < |p| <= MAX_FRAME {
      assert Chunks(p)[1..] == [];
    } else if |p| > MAX_FRAME {
      ChunksJoin(p[MAX_FRAME..]);
      assert Chunks(p)[1..] == Chunks(p[MAX_FRAME..]);
    }
  }

  function DataFrames(id: StreamId, parts: seq<Bytes>): (r: seq<Frame>)
    requires forall i :: 0 <= i < |parts| ==> |parts[i]| <= MAX_FRAME
    ensures AllFit(r) && |r| == |parts|
  {
    seq(|parts|, i requires 0 <= i < |parts| => Data(id, parts[i]))
  }

  lemma {:induction false} EncodeAppend(a: seq<Frame>, f: Frame)
    requires AllFit(a) && Fits(f)
    ensures AllFit(a + [f]) && EncodeAll(a + [f]) == EncodeAll(a) + Encode(f)
  {
    hide Encode, Fits;
    if a == [] {
      assert (a + [f])[1..] == [];
    } else {
      assert (a + [f])[1..] == a[1..] + [f];
      EncodeAppend(a[1..], f);
    }
  }

  lemma DataFramesAppend(id: StreamId, parts: seq<Bytes>, part: Bytes)
    requires forall i :: 0 <= i < |parts| ==> |parts[i]| <= MAX_FRAME
    requires |part| <= MAX_FRAME
    ensures DataFrames(id, parts + [part]) == DataFrames(id, parts) + [Data(id, part)]
  {
  }

  function HeaderOf(f: Frame): (h: Bytes)
    requires Fits(f)
    ensures |h| == HEADER
  {
    [KindOf(f)] + PutUint32(f.id) + PutUint32(|PayloadOf(f)|)
  }

  lemma EncodeIsHeaderAndPayload(f: Frame)
    requires Fits(f)
    ensures Encode(f) == HeaderOf(f) + PayloadOf(f) && |Encode(f)| == HEADER + |PayloadOf(f)|
  {
  }

  /** The write end of the transport. It takes `room` more bytes and then fails,
      possibly within a frame; after that the multiplexer is shut down. */
  class Transport {
    var bytes: Bytes
    var room: nat
    var done: bool
    ghost var frames: seq<Frame>
    ghost var torn: Option<Frame>
    ghost var part: nat

    /** The bytes are the frames that went out whole and at most the front of
        one more. */
    ghost predicate Valid()
      reads this
    {
      && AllFit(frames)
      && (torn.None? ==> bytes == EncodeAll(frames))
      && (torn.Some? ==> done && Fits(torn.value) && part < |Encode(torn.value)|
                         && bytes == EncodeAll(frames) + Encode(torn.value)[..part])
    }

    constructor (room: nat)
      ensures Valid() && frames == [] && bytes == [] && this.room == room && !done
    {
      bytes, this.room, done := [], room, false;
      frames, torn, part := [], None, 0;
    }

    method Put(b: Bytes) returns (ok: bool)
      modifies this`bytes, this`room
      ensures ok == (|b| <= old(room))
      ensures ok ==> bytes == old(bytes) + b && room == old(room) - |b|
      ensures !ok ==> bytes == old(bytes) + b[..old(room)] && room == 0
    {
      ok := |b| <= room;
      var n := if ok then |b| else room;
      assert b[..|b|] == b;
      bytes := bytes + b[..n];
      room := room - n;
    }

    /** Header and payload go out together, under one lock. */
    method WriteFrame(f: Frame) returns (ok: bool)
      requires Valid()
      modifies this
      ensures Valid()
      ensures ok <==> Fits(f) && !old(done) && HEADER + |PayloadOf(f)| <= old(room)
      ensures ok ==> frames == old(frames) + [f] && !done && room == old(room) - HEADER - |PayloadOf(f)|
      ensures !ok ==> frames == old(frames)
      ensures !ok && (old(done) || !Fits(f)) ==> bytes == old(bytes) && done == old(done)
      ensures !ok && !old(done) && Fits(f) ==>
                done && old(room) < |Encode(f)| && bytes == old(bytes) + Encode(f)[..old(room)]
    {
      if done { return false; }
      if |PayloadOf(f)| > MAX_FRAME { return false; }
      hide EncodeAll, AllFit, Encode, HeaderOf;
      EncodeIsHeaderAndPayload(f);
      EncodeAppend(frames, f);
      ghost var before, space := bytes, room;
      FrontOf(HeaderOf(f), PayloadOf(f), before, space);
      var sent := Put(HeaderOf(f));
      if sent && |PayloadOf(f)| > 0 { sent := Put(PayloadOf(f)); }
      if !sent {
        done := true;
        torn, part := Some(f), space;
        return false;
      }
      frames := frames + [f];
      return true;
    }

    /** A write of any length goes out as its chunks in order; if the transport
        fails, the count returned is that of the chunks that went out whole. */
    method Write(id: StreamId, p: Bytes) returns (written: nat, ok: bool)
      requires Valid()
      modifies this
      ensures Valid()
      ensures written <= |p| && frames == old(frames) + DataFrames(id, Chunks(p[..written]))
      ensures ok <==> p == [] || (!old(done) && |p| + HEADER * |Chunks(p)| <= old(room))
      ensures ok ==> written == |p|
      ensures !ok ==> done && written < |p| && written % MAX_FRAME == 0
    {
      hide Chunks, AllFit, EncodeAll, DataFrames, Fits, Encode, PayloadOf;
      ghost var before := frames;
      ghost var count := 0;
      written := 0;
      NothingChunked(id, p);
      while written < |p|
        invariant Valid() && written <= |p|
        invariant room == old(room) - written - HEADER * count && done == old(done)
        invariant written == 0 ==> count == 0
        invariant written > 0 ==> !done
        invariant written < |p| ==> written == count * MAX_FRAME
        invariant frames == before + DataFrames(id, Chunks(p[..written]))
        invariant |Chunks(p[written..])| == |Chunks(p)| - count
      {
        var n := if |p| - written < MAX_FRAME then |p| - written else MAX_FRAME;
        ChunksOfRest(p[written..], n);
        DataPayload(id, p[written..][..n]);
        var sent := WriteFrame(Data(id, p[written..][..n]));
        if !sent {
          return written, false;
        }
        assert p[written..][..n] == p[written..written + n];
        assert p[written..][n..] == p[written + n..];
        ChunksExtend(p, written, n);
        DataFramesAppend(id, Chunks(p[..written]), p[written..written + n]);
        written := written + n;
        count := count + 1;
      }
      NothingChunked(id, p);
      assert p[..written] == p;
      return written, true;
    }

    /** Even after a failure the other side reads exactly the frames that went
        out whole, and waits. */
    lemma ReaderSeesWholeFrames()
      requires Valid()
      ensures Parse(bytes).frames == frames && Parse(bytes).end == More
    {
      hide EncodeAll, Encode, AllFit, Parse;
      if torn.Some? {
        PartialRead(frames, torn.value, part);
      } else {
        EncodeIsHeaderAndPayload(Close(0));
        PartialRead(frames, Close(0), 0);
        assert bytes + Encode(Close(0))[..0] == bytes;
      }
    }
  }

  lemma DataPayload(id: StreamId, chunk: Bytes)
    ensures PayloadOf(Data(id, chunk)) == chunk
  {
  }

  /** Two writes in a row that together stop at `space` bytes. */
  lemma FrontOf(a: Bytes, b: Bytes, before: Bytes, space: nat)
    ensures space < |a| ==> (a + b)[..space] == a[..space]
    ensures |a| <= space < |a| + |b| ==> before + a + b[..space - |a|] == before + (a + b)[..space]
    ensures before + a + b == before + (a + b)
    ensures b == [] ==> before + a == before + (a + b)
  {
  }

  lemma NothingChunked(id: StreamId, p: Bytes)
    ensures Chunks(p[..0]) == [] && DataFrames(id, Chunks(p[..0])) == []
    ensures p[0..] == p && Chunks(p[|p|..]) == []
  {
  }

  lemma ChunksOfRest(rest: Bytes, n: nat)
    requires 0 < n <= |rest| && n == if |rest| < MAX_FRAME then |rest| else MAX_FRAME
    ensures |Chunks(rest)| == 1 + |Chunks(rest[n..])| && Fits(Data(0, rest[..n]))
    ensures forall id :: Fits(Data(id, rest[..n]))
  {
    if n == |rest| { assert rest[n..] == []; }
  }

  /** Cutting a longer prefix only adds the next chunk. */
  lemma {:induction false} ChunksExtend(p: Bytes, done: nat, n: nat)
    requires done + n <= |p| && done % MAX_FRAME == 0 && 0 < n <= MAX_FRAME
    ensures Chunks(p[..done + n]) == Chunks(p[..done]) + [p[done..done + n]]
    decreases done
  {
    if done == 0 {
      assert p[..done + n] == p[done..done + n];
    } else {
      var q := p[MAX_FRAME..];
      ChunksExtend(q, done - MAX_FRAME, n);
      assert p[..done + n][..MAX_FRAME] == p[..MAX_FRAME];
      assert p[..done + n][MAX_FRAME..] == q[..done - MAX_FRAME + n];
      assert q[done - MAX_FRAME..done - MAX_FRAME + n] == p[done..done + n];
      if done > MAX_FRAME {
        assert p[..done][..MAX_FRAME] == p[..MAX_FRAME];
        assert p[..done][MAX_FRAME..] == q[..done - MAX_FRAME];
      } else {
        assert p[..done] == p[..MAX_FRAME];
        assert Chunks(p[..done]) == [p[..done]];
      }
    }
  }
}
