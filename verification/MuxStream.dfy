/** One stream of the multiplexer at the grain of its lock sections: a wake
    channel of capacity one, signals sent after the lock is released, and
    readers that check, park and wake. */
module MuxStream {
  import opened Common
  import opened Protocol
  import opened MuxCodec
  import opened Mux

  /** The fields under the stream's lock, with the wake token. */
  datatype Cell = Cell(buffer: Bytes, failed: bool, remoteClosed: bool, localClosed: bool, token: bool)

  const NEW_CELL := Cell([], false, false, false, false)

  predicate Overflows(c: Cell, data: Bytes) {
    !c.remoteClosed && !c.localClosed && |c.buffer| + |data| > MAX_BUFFERED
  }

  function Accept(c: Cell, data: Bytes): Cell {
    if c.remoteClosed || c.localClosed then c
    else if Overflows(c, data) then c.(failed := true, remoteClosed := true)
    else c.(buffer := c.buffer + data)
  }

  function HangUp(c: Cell, failed: bool): Cell {
    c.(remoteClosed := true, failed := c.failed || failed)
  }

  /** What one pass of the reader's loop finds under the lock. */
  datatype Attempt = Given(bytes: Bytes) | Failed | Eof | Park

  function Look(c: Cell, room: nat): Attempt {
    if c.buffer != [] then Given(if room < |c.buffer| then c.buffer[..room] else c.buffer)
    else if c.failed then Failed
    else if c.remoteClosed then Eof
    else Park
  }

  /** A reader has something to return. */
  predicate Ready(c: Cell) { c.buffer != [] || c.failed || c.remoteClosed }

  /** The stream object, one method per lock section, and the signal that is
      sent after the lock is released. */
  class StreamObject {
    var buffer: Bytes
    var failed: bool
    var remoteClosed: bool
    var localClosed: bool
    var token: bool

    function View(): Cell
      reads this
    {
      Cell(buffer, failed, remoteClosed, localClosed, token)
    }

    constructor ()
      ensures View() == NEW_CELL
    {
      buffer, failed, remoteClosed, localClosed, token := [], false, false, false, false;
    }

    /** A non-blocking send on a channel of capacity one. */
    method Signal()
      modifies this`token
      ensures View() == old(View()).(token := true)
    {
      if !token { token := true; }
    }

    /** On overflow a reset is owed once the signal is sent. */
    method ReceiveLocked(data: Bytes) returns (overflow: bool)
      modifies this
      ensures View() == Accept(old(View()), data)
      ensures overflow == Overflows(old(View()), data)
      ensures old(remoteClosed || localClosed) ==> View() == old(View()) && !overflow
      ensures !old(remoteClosed || localClosed) ==>
                && overflow == (|old(buffer)| + |data| > MAX_BUFFERED)
                && View() == if overflow then old(View()).(failed := true, remoteClosed := true)
                             else old(View()).(buffer := old(buffer) + data)
    {
      overflow := false;
      if !remoteClosed && !localClosed {
        if |buffer| + |data| > MAX_BUFFERED {
          failed, remoteClosed, overflow := true, true, true;
        } else {
          buffer := buffer + data;
        }
      }
    }

    /** Whether the stream must now leave the map is decided under the lock. */
    method RemoteCloseLocked(err: bool) returns (remove: bool)
      modifies this
      ensures View() == HangUp(old(View()), err)
      ensures View() == old(View()).(remoteClosed := true, failed := old(failed) || err)
      ensures remove == old(localClosed)
    {
      remoteClosed := true;
      if err { failed := true; }
      remove := localClosed;
    }

    /** Only the first close announces itself, and leaves the map afterwards if
        the remote side was closed by then. */
    method CloseLocked() returns (announce: bool, remove: bool)
      modifies this
      ensures announce == !old(localClosed)
      ensures View() == old(View()).(localClosed := true)
      ensures remove == (announce && old(remoteClosed))
    {
      if localClosed { return false, false; }
      localClosed := true;
      remove := remoteClosed;
      announce := true;
    }

    /** One pass of the read loop up to the wait. */
    method ReadPass(room: nat) returns (a: Attempt)
      modifies this`buffer
      ensures a == Look(old(View()), room)
      ensures a.Given? <==> old(buffer) != []
      ensures a.Failed? <==> old(buffer) == [] && failed
      ensures a.Eof? <==> old(buffer) == [] && !failed && remoteClosed
      ensures a.Given? ==> a.bytes + buffer == old(buffer) && (|a.bytes| == room || buffer == [])
      ensures !a.Given? ==> buffer == old(buffer)
    {
      if |buffer| > 0 {
        var n := if room < |buffer| then room else |buffer|;
        a := Given(buffer[..n]);
        buffer := buffer[n..];
        return;
      }
      if failed { return Failed; }
      if remoteClosed { return Eof; }
      return Park;
    }
  }

  // ---------------------------------------------------------- interleavings

  /** A stream with the goroutines around it. `unsent` counts lock sections
      whose signal is still to come; `looking` readers are about to check and
      `parked` ones wait. `offered`, `accepted` and `read` record the bytes of
      the frames that arrived, of those kept, and of those handed out. */
  datatype World = World(
    cell: Cell, unsent: nat, looking: nat, parked: nat,
    offered: Bytes, accepted: Bytes, read: Bytes, sawEof: bool)

  const NEW_WORLD := World(NEW_CELL, 0, 0, 0, [], [], [], false)

  datatype Act =
    | Arrive(data: Bytes)
    | PeerCloses(failed: bool)
    | CloseHere
    | SetReadDeadline
    | SendSignal
    | CallRead
    | Check(room: nat)
    | TakeToken
    | GiveUp

  predicate CanAct(w: World, a: Act) {
    match a
    case SendSignal => w.unsent > 0
    case Check(_) => w.looking > 0
    case TakeToken => w.parked > 0 && w.cell.token
    case GiveUp => w.parked > 0
    case _ => true
  }

  function Stepped(w: World, a: Act): World
    requires CanAct(w, a)
  {
    match a
    case Arrive(data) =>
      var kept := !w.cell.remoteClosed && !w.cell.localClosed && !Overflows(w.cell, data);
      w.(cell := Accept(w.cell, data), unsent := w.unsent + 1, offered := w.offered + data,
         accepted := if kept then w.accepted + data else w.accepted)
    case PeerCloses(failed) => w.(cell := HangUp(w.cell, failed), unsent := w.unsent + 1)
    case CloseHere =>
      if w.cell.localClosed then w
      else w.(cell := w.cell.(localClosed := true), unsent := w.unsent + 1)
    case SetReadDeadline => w.(unsent := w.unsent + 1)
    case SendSignal => w.(cell := w.cell.(token := true), unsent := w.unsent - 1)
    case CallRead => w.(looking := w.looking + 1)
    case Check(room) =>
      (match Look(w.cell, room)
       case Given(bytes) =>
         w.(looking := w.looking - 1, read := w.read + bytes,
            cell := w.cell.(buffer := w.cell.buffer[|bytes|..]))
       case Failed => w.(looking := w.looking - 1)
       case Eof => w.(looking := w.looking - 1, sawEof := true)
       case Park => w.(looking := w.looking - 1, parked := w.parked + 1))
    case TakeToken => w.(cell := w.cell.(token := false), parked := w.parked - 1, looking := w.looking + 1)
    case GiveUp => w.(parked := w.parked - 1)
  }

  ghost predicate Possible(run: seq<Act>)
    decreases |run|, 0
  {
    run == [] || (Possible(run[..|run| - 1]) && CanAct(Then(run[..|run| - 1]), run[|run| - 1]))
  }

  ghost function Then(run: seq<Act>): World
    requires Possible(run)
    decreases |run|, 1
  {
    if run == [] then NEW_WORLD else Stepped(Then(run[..|run| - 1]), run[|run| - 1])
  }

  /** No call of Read ever makes more than `n` of them going on at once. */
  ghost predicate AtMost(n: nat, run: seq<Act>)
    requires Possible(run)
  {
    forall k :: 0 <= k < |run| && run[k].CallRead? && Possible(run[..k]) ==>
      Then(run[..k]).looking + Then(run[..k]).parked < n
  }

  // --------------------------------------------- the same stream, seen whole

  /** A stream of the endpoint model at this grain. */
  function CellOf(s: Stream, token: bool): Cell {
    Cell(s.buffer, s.failed, s.remoteClosed, s.localClosed, token)
  }

  /** What a data frame does to a live stream of an endpoint is what its lock
      section does here; the endpoint owes a reset exactly on overflow. */
  lemma AcceptIsReceive(x: Endpoint, id: StreamId, data: Bytes, token: bool)
    requires id in x.live && id in x.streams
    ensures var c, z := CellOf(x.streams[id], token), Receive(x, Data(id, data));
            && id in z.streams && CellOf(z.streams[id], token) == Accept(c, data)
            && z.owed == (if Overflows(c, data) then Some(id) else x.owed)
            && (z.streams[id].accepted == x.streams[id].accepted + data
                || CellOf(z.streams[id], token).buffer == c.buffer)
  {
  }

  lemma HangUpIsRemoteClose(x: Endpoint, id: StreamId, failed: bool, token: bool)
    requires id in x.streams
    ensures var z := RemoteClose(x, id, failed);
            && CellOf(z.streams[id], token) == HangUp(CellOf(x.streams[id], token), failed)
            && z.live == if x.streams[id].localClosed then x.live - {id} else x.live
  {
  }

  lemma CloseIsCloseLocal(x: Endpoint, id: StreamId, token: bool)
    requires Enabled(x, [], CloseLocal(id))
    ensures var z := Step(x, [], CloseLocal(id)).0;
            CellOf(z.streams[id], token) == CellOf(x.streams[id], token).(localClosed := true)
  {
  }

  // ------------------------------------------------------------ conservation

  ghost predicate BytesOk(w: World) {
    && w.accepted == w.read + w.cell.buffer
    && w.accepted <= w.offered
    && (!w.cell.remoteClosed && !w.cell.localClosed ==> w.accepted == w.offered)
    && |w.cell.buffer| <= MAX_BUFFERED
    && (w.sawEof ==> w.cell.remoteClosed && w.cell.buffer == [])
  }

  lemma ActKeepsBytes(w: World, a: Act)
    requires BytesOk(w) && CanAct(w, a)
    ensures BytesOk(Stepped(w, a))
  {
    match a
    case Arrive(data) =>
      assert w.read + (w.cell.buffer + data) == w.accepted + data;
    case Check(room) =>
      var look := Look(w.cell, room);
      if look.Given? {
        var n := |look.bytes|;
        assert w.read + w.cell.buffer == (w.read + look.bytes) + w.cell.buffer[n..];
      }
    case _ =>
  }

  lemma {:induction false} ReachableBytes(run: seq<Act>)
    requires Possible(run)
    ensures BytesOk(Then(run))
  {
    if run != [] {
      hide BytesOk, Stepped, CanAct;
      ReachableBytes(run[..|run| - 1]);
      ActKeepsBytes(Then(run[..|run| - 1]), run[|run| - 1]);
    } else {
      hide Stepped, CanAct;
    }
  }

  /** End of file is reported only after every accepted byte was read, and
      nothing is ever accepted after it. */
  lemma EofComesLast(run: seq<Act>, more: seq<Act>)
    requires Possible(run) && Possible(run + more) && Then(run).sawEof
    ensures Then(run).read == Then(run).accepted
    ensures Then(run + more).accepted == Then(run).accepted
  {
    ReachableBytes(run);
    ClosedStaysClosed(run, more);
  }

  lemma {:induction false} ClosedStaysClosed(run: seq<Act>, more: seq<Act>)
    requires Possible(run) && Possible(run + more) && Then(run).cell.remoteClosed
    ensures Then(run + more).cell.remoteClosed && Then(run + more).accepted == Then(run).accepted
    decreases |more|
  {
    if more == [] {
      assert run + more == run;
    } else {
      hide Stepped, CanAct;
      var init := more[..|more| - 1];
      assert (run + more)[..|run + more| - 1] == run + init;
      ClosedStaysClosed(run, init);
      ActKeepsClosed(Then(run + init), more[|more| - 1]);
    }
  }

  lemma ActKeepsClosed(w: World, a: Act)
    requires w.cell.remoteClosed && CanAct(w, a)
    ensures Stepped(w, a).cell.remoteClosed && Stepped(w, a).accepted == w.accepted
  {
  }

  // ---------------------------------------------------- flags and arrivals

  /** Data that finds both sides open and no room for it. */
  predicate TooMuch(w: World, a: Act) {
    a.Arrive? && !w.cell.remoteClosed && !w.cell.localClosed && |w.cell.buffer| + |a.data| > MAX_BUFFERED
  }

  /** Data that finds both sides open and fits. */
  predicate Fitting(w: World, a: Act) {
    a.Arrive? && !w.cell.remoteClosed && !w.cell.localClosed && |w.cell.buffer| + |a.data| <= MAX_BUFFERED
  }

  ghost predicate Failing(run: seq<Act>)
    requires Possible(run)
  {
    run != []
    && var init, a := run[..|run| - 1], run[|run| - 1];
       Failing(init) || a == PeerCloses(true) || TooMuch(Then(init), a)
  }

  ghost predicate Ending(run: seq<Act>)
    requires Possible(run)
  {
    run != []
    && var init, a := run[..|run| - 1], run[|run| - 1];
       Ending(init) || a.PeerCloses? || TooMuch(Then(init), a)
  }

  ghost function Arrived(run: seq<Act>): Bytes
    requires Possible(run)
  {
    if run == [] then []
    else
      var init, a := run[..|run| - 1], run[|run| - 1];
      Arrived(init) + if Fitting(Then(init), a) then a.data else []
  }

  /** Every arrival, remote close, deadline and first local close sends one
      signal. */
  ghost function Signals(run: seq<Act>): nat
    requires Possible(run)
  {
    if run == [] then 0
    else
      var init, a := run[..|run| - 1], run[|run| - 1];
      Signals(init)
      + if a.Arrive? || a.PeerCloses? || a.SetReadDeadline? || (a.CloseHere? && CloseHere !in init) then 1 else 0
  }

  function Sent(run: seq<Act>): nat {
    if run == [] then 0 else Sent(run[..|run| - 1]) + if run[|run| - 1].SendSignal? then 1 else 0
  }

  /** A stream's state is its history: it has failed exactly after a reset or an
      overflow, its remote side is closed exactly after a close, a reset or an
      overflow, its local side exactly after a local close, and it has kept
      exactly the data that fitted while both sides were open. */
  lemma {:induction false} FlagsAreHistory(run: seq<Act>)
    requires Possible(run)
    ensures var w := Then(run);
            && (w.cell.failed <==> Failing(run))
            && (w.cell.remoteClosed <==> Ending(run))
            && (w.cell.localClosed <==> CloseHere in run)
            && w.accepted == Arrived(run)
            && Sent(run) + w.unsent == Signals(run)
  {
    if run != [] {
      var init, a := run[..|run| - 1], run[|run| - 1];
      assert run == init + [a];
      FlagsAreHistory(init);
      ActFlags(Then(init), a);
      hide Stepped, CanAct;
      assert Arrived(init) + [] == Arrived(init);
    }
  }

  lemma ActFlags(w: World, a: Act)
    requires CanAct(w, a)
    ensures var z := Stepped(w, a);
            && z.cell.failed == (w.cell.failed || a == PeerCloses(true) || TooMuch(w, a))
            && z.cell.remoteClosed == (w.cell.remoteClosed || a.PeerCloses? || TooMuch(w, a))
            && z.cell.localClosed == (w.cell.localClosed || a.CloseHere?)
            && z.accepted == (if Fitting(w, a) then w.accepted + a.data else w.accepted)
            && z.unsent == w.unsent - (if a.SendSignal? then 1 else 0)
                 + if a.Arrive? || a.PeerCloses? || a.SetReadDeadline? || (a.CloseHere? && !w.cell.localClosed)
                   then 1 else 0
  {
  }

  /** Calls of Read less those that have returned or given up. */
  ghost function Readers(run: seq<Act>): int
    requires Possible(run)
  {
    if run == [] then 0
    else
      var init, a := run[..|run| - 1], run[|run| - 1];
      Readers(init) + match a
                      case CallRead => 1
                      case GiveUp => -1
                      case Check(_) => if Ready(Then(init).cell) then -1 else 0
                      case _ => 0
  }

  /** Every call is looking or parked until it returns or gives up. */
  lemma {:induction false} ReadersAreCounted(run: seq<Act>)
    requires Possible(run)
    ensures Then(run).looking + Then(run).parked == Readers(run)
  {
    if run != [] { ReadersAreCounted(run[..|run| - 1]); }
  }

  // ------------------------------------------------------------- wake tokens

  ghost predicate WakeOk(w: World) {
    && w.looking + w.parked <= 1
    && (w.parked > 0 && Ready(w.cell) ==> w.cell.token || w.unsent > 0)
  }

  lemma ActKeepsWake(w: World, a: Act)
    requires WakeOk(w) && CanAct(w, a) && (a.CallRead? ==> w.looking + w.parked == 0)
    ensures WakeOk(Stepped(w, a))
  {
  }

  lemma AtMostInit(n: nat, run: seq<Act>)
    requires Possible(run) && AtMost(n, run) && run != []
    ensures var init, a := run[..|run| - 1], run[|run| - 1];
            && Possible(init) && AtMost(n, init)
            && (a.CallRead? ==> Then(init).looking + Then(init).parked < n)
  {
    hide Stepped, CanAct;
    var init := run[..|run| - 1];
    assert Possible(init);
    assert forall k :: 0 <= k < |init| ==> init[..k] == run[..k] && init[k] == run[k];
  }

  lemma {:induction false} ReachableWake(run: seq<Act>)
    requires Possible(run) && AtMost(1, run)
    ensures WakeOk(Then(run))
  {
    hide WakeOk, Stepped, CanAct, AtMost;
    if run != [] {
      AtMostInit(1, run);
      ReachableWake(run[..|run| - 1]);
      ActKeepsWake(Then(run[..|run| - 1]), run[|run| - 1]);
    } else {
      NewIsAwake();
    }
  }

  lemma NewIsAwake()
    ensures WakeOk(NEW_WORLD)
  {
  }

  /** No wake-up is lost: a lone parked reader with data, an error or a remote
      close available has a token, or a signal about to be sent. */
  lemma ParkedReaderIsWoken(run: seq<Act>)
    requires Possible(run) && AtMost(1, run)
    ensures var w := Then(run);
            w.parked > 0 && Ready(w.cell) ==> w.cell.token || w.unsent > 0
  {
    ReachableWake(run);
  }

  lemma Extend(run: seq<Act>, a: Act)
    requires Possible(run)
    ensures Possible(run + [a]) == CanAct(Then(run), a)
    ensures Possible(run + [a]) ==> Then(run + [a]) == Stepped(Then(run), a)
  {
    assert (run + [a])[..|run + [a]| - 1] == run;
  }

  // ------------------------------------------------- what a reader returns

  /** The steps a stream takes without any input: signals on their way, wakes
      and checks. */
  predicate Internal(a: Act) { a.SendSignal? || a.TakeToken? || a.Check? }

  ghost predicate AllInternal(acts: seq<Act>) { forall i :: 0 <= i < |acts| ==> Internal(acts[i]) }

  /** None of them is left to take. */
  predicate Quiet(w: World) { w.unsent == 0 && w.looking == 0 && (w.parked > 0 ==> !w.cell.token) }

  lemma QuietMeansNothingLeft(w: World)
    ensures Quiet(w) <==> forall a :: Internal(a) ==> !CanAct(w, a)
  {
    if !Quiet(w) {
      var a := if w.unsent > 0 then SendSignal else if w.looking > 0 then Check(0) else TakeToken;
      assert Internal(a) && CanAct(w, a);
    }
  }

  /** Every internal step brings this down. */
  function Work(w: World): nat { 3 * w.unsent + (if w.cell.token then 2 else 0) + w.looking }

  /** The read handed out the front of the data found in `w`, as much as there is
      room for, or else reported the error, or else the end of file. */
  predicate Returned(w: World, z: World, room: nat) {
    if w.cell.buffer != [] then
      z.read == w.read + w.cell.buffer[..Min(room, |w.cell.buffer|)] && z.sawEof == w.sawEof
    else if w.cell.failed then z.read == w.read && z.sawEof == w.sawEof
    else w.cell.remoteClosed && z.read == w.read && z.sawEof
  }

  predicate StillWaiting(w: World, z: World) {
    && z.looking + z.parked == w.looking + w.parked
    && z.cell == w.cell.(token := z.cell.token) && z.read == w.read && z.sawEof == w.sawEof
  }

  ghost predicate HasReturned(w: World, z: World, acts: seq<Act>) {
    z.looking + z.parked == 0 && exists room :: Check(room) in acts && Returned(w, z, room)
  }

  ghost predicate Progress(w: World, z: World, acts: seq<Act>) {
    && WakeOk(z)
    && |acts| + Work(z) <= Work(w)
    && (StillWaiting(w, z) || HasReturned(w, z, acts))
  }

  lemma InternalProgress(w: World, z: World, acts: seq<Act>, a: Act)
    requires w.looking + w.parked == 1 && Progress(w, z, acts) && Internal(a) && CanAct(z, a)
    ensures Progress(w, Stepped(z, a), acts + [a])
  {
    hide WakeOk;
    ActKeepsWake(z, a);
    assert forall b :: b in acts ==> b in acts + [a];
    if HasReturned(w, z, acts) {
      var room :| Check(room) in acts && Returned(w, z, room);
      assert Check(room) in acts + [a];
    } else if a.Check? && Ready(z.cell) {
      assert a in acts + [a] && Look(w.cell, a.room) == Look(z.cell, a.room);
      assert Returned(w, Stepped(z, a), a.room);
    }
  }

  lemma {:induction false} InternalRuns(run: seq<Act>, more: seq<Act>)
    requires Possible(run) && AtMost(1, run) && Then(run).looking + Then(run).parked == 1
    requires Possible(run + more) && AllInternal(more)
    ensures Progress(Then(run), Then(run + more), more)
    decreases |more|
  {
    hide AtMost, Progress, Stepped, CanAct, Internal;
    if more == [] {
      assert run + more == run;
      ReachableWake(run);
      NoProgressYet(Then(run));
    } else {
      var init := more[..|more| - 1];
      assert (run + more)[..|run + more| - 1] == run + init;
      InternalRuns(run, init);
      InternalProgress(Then(run), Then(run + init), init, more[|more| - 1]);
      assert more == init + [more[|more| - 1]];
    }
  }

  lemma NoProgressYet(w: World)
    requires WakeOk(w)
    ensures Progress(w, w, [])
  {
  }

  /** However the stream's own steps are scheduled, a lone reader's call has
      returned once none is left if and only if there was something to return;
      it returns data before an error, an error before the end of file. */
  lemma ReaderReturnsIff(run: seq<Act>, more: seq<Act>)
    requires Possible(run) && AtMost(1, run) && Then(run).looking + Then(run).parked == 1
    requires Possible(run + more) && AllInternal(more) && Quiet(Then(run + more))
    ensures var w, z := Then(run), Then(run + more);
            && (z.looking + z.parked == 0 <==> Ready(w.cell))
            && (Ready(w.cell) ==> HasReturned(w, z, more))
  {
    InternalRuns(run, more);
    hide Possible, Then, AtMost, AllInternal, WakeOk;
    QuietOutcome(Then(run), Then(run + more), more);
  }

  lemma QuietOutcome(w: World, z: World, acts: seq<Act>)
    requires w.looking + w.parked == 1 && Progress(w, z, acts) && Quiet(z)
    ensures z.looking + z.parked == 0 <==> Ready(w.cell)
    ensures Ready(w.cell) ==> HasReturned(w, z, acts)
  {
    if HasReturned(w, z, acts) {
      var room :| Check(room) in acts && Returned(w, z, room);
    }
  }

  /** And no schedule of them goes on for ever. */
  lemma InternalStepsEnd(run: seq<Act>, more: seq<Act>)
    requires Possible(run) && AtMost(1, run) && Then(run).looking + Then(run).parked == 1
    requires Possible(run + more) && AllInternal(more)
    ensures |more| <= Work(Then(run))
  {
    InternalRuns(run, more);
  }

  // ---------------------------------------------------------- a local close

  /** A local close gives a pending read nothing to return: from then on there
      is something exactly if the peer has closed since. */
  lemma {:induction false} LocalCloseWaitsForPeer(run: seq<Act>, more: seq<Act>)
    requires Possible(run) && Possible(run + more)
    requires Then(run).cell.localClosed && !Ready(Then(run).cell)
    ensures Then(run + more).cell.localClosed && Then(run + more).cell.buffer == []
    ensures Ready(Then(run + more).cell) <==> exists i :: 0 <= i < |more| && more[i].PeerCloses?
    decreases |more|
  {
    hide Stepped, CanAct, Ready;
    if more == [] {
      assert run + more == run;
      UnreadyIsEmpty(Then(run).cell);
    } else {
      var init, a := more[..|more| - 1], more[|more| - 1];
      assert (run + more)[..|run + more| - 1] == run + init;
      LocalCloseWaitsForPeer(run, init);
      ClosedCellStep(Then(run + init), a);
      assert forall i :: 0 <= i < |init| ==> more[i] == init[i];
    }
  }

  lemma UnreadyIsEmpty(c: Cell)
    requires !Ready(c)
    ensures c.buffer == []
  {
  }

  lemma ClosedCellStep(w: World, a: Act)
    requires w.cell.localClosed && w.cell.buffer == [] && CanAct(w, a)
    ensures var c := Stepped(w, a).cell;
            c.localClosed && c.buffer == [] && (Ready(c) <==> Ready(w.cell) || a.PeerCloses?)
  {
  }

  // ------------------------------------------------------- several readers

  /** A parked reader with something to return, and no wake-up under way. */
  predicate Starved(w: World) {
    w.parked > 0 && Ready(w.cell) && !w.cell.token && w.unsent == 0 && w.looking == 0
  }

  /** Nothing the stream does by itself wakes such a reader: only new input, a
      deadline, another call or a shutdown can follow. */
  lemma StarvedIsStuck(w: World)
    requires Starved(w)
    ensures Quiet(w)
    ensures forall a :: CanAct(w, a) ==> !Internal(a)
  {
  }

  /** Wake-ups are never lost if and only if reads do not overlap. */
  lemma StarvationIff(n: nat)
    ensures (forall run :: Possible(run) && AtMost(n, run) ==> !Starved(Then(run))) <==> n <= 1
  {
    if n <= 1 {
      forall run | Possible(run) && AtMost(n, run) ensures !Starved(Then(run)) {
        assert AtMost(1, run);
        ReachableWake(run);
      }
    } else {
      var run := TwoReadersCanStarve();
      assert AtMost(n, run);
    }
  }

  /** With two readers the token can be spent by the wrong one: here both park,
      the peer closes, one sees the end of file and the other is starved. */
  lemma TwoReadersCanStarve() returns (run: seq<Act>)
    ensures Possible(run) && AtMost(2, run) && Starved(Then(run))
  {
    hide Possible, Then, AtMost, Stepped, CanAct;
    var open := World(NEW_CELL, 0, 0, 2, [], [], [], false);
    var shut := open.(cell := NEW_CELL.(remoteClosed := true));
    ShutSteps(open, shut);
    run := BothPark();
    run := Reach(run, PeerCloses(false), shut.(unsent := 1));
    run := Reach(run, SendSignal, shut.(cell := shut.cell.(token := true)));
    run := Reach(run, TakeToken, shut.(looking := 1, parked := 1));
    run := Reach(run, Check(1), shut.(parked := 1, sawEof := true));
  }

  lemma ShutSteps(open: World, shut: World)
    requires open == World(NEW_CELL, 0, 0, 2, [], [], [], false)
    requires shut == open.(cell := NEW_CELL.(remoteClosed := true))
    ensures Stepped(open, PeerCloses(false)) == shut.(unsent := 1)
    ensures CanAct(shut.(unsent := 1), SendSignal)
    ensures Stepped(shut.(unsent := 1), SendSignal) == shut.(cell := shut.cell.(token := true))
    ensures CanAct(shut.(cell := shut.cell.(token := true)), TakeToken)
    ensures Stepped(shut.(cell := shut.cell.(token := true)), TakeToken) == shut.(looking := 1, parked := 1)
    ensures CanAct(shut.(looking := 1, parked := 1), Check(1))
    ensures Stepped(shut.(looking := 1, parked := 1), Check(1)) == shut.(parked := 1, sawEof := true)
    ensures CanAct(open, PeerCloses(false))
  {
  }

  lemma BothPark() returns (run: seq<Act>)
    ensures Possible(run) && AtMost(2, run) && Then(run) == World(NEW_CELL, 0, 0, 2, [], [], [], false)
  {
    hide Possible, Then, AtMost, Stepped, CanAct;
    StartsNew();
    ParkSteps(0);
    ParkSteps(1);
    run := Reach([], CallRead, NEW_WORLD.(looking := 1));
    run := Reach(run, Check(1), NEW_WORLD.(parked := 1));
    run := Reach(run, CallRead, NEW_WORLD.(looking := 1, parked := 1));
    run := Reach(run, Check(1), NEW_WORLD.(parked := 2));
  }

  lemma ParkSteps(parked: nat)
    ensures var w, z := NEW_WORLD.(parked := parked), NEW_WORLD.(looking := 1, parked := parked);
            && CanAct(w, CallRead) && Stepped(w, CallRead) == z
            && CanAct(z, Check(1)) && Stepped(z, Check(1)) == NEW_WORLD.(parked := parked + 1)
  {
  }

  lemma StartsNew()
    ensures Possible([]) && Then([]) == NEW_WORLD && AtMost(2, [])
  {
  }

  lemma Reach(run: seq<Act>, a: Act, w: World) returns (longer: seq<Act>)
    requires Possible(run) && AtMost(2, run) && CanAct(Then(run), a) && Stepped(Then(run), a) == w
    requires a.CallRead? ==> Then(run).looking + Then(run).parked < 2
    ensures Possible(longer) && AtMost(2, longer) && Then(longer) == w
  {
    hide Stepped, CanAct;
    Extend(run, a);
    longer := run + [a];
    assert forall k :: 0 <= k < |run| ==> longer[..k] == run[..k] && longer[k] == run[k];
    assert longer[..|run|] == run;
  }
}
