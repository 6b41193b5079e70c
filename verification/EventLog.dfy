/** A bounded, sequence-numbered event log and its resume rule. */
module EventLog {
  import opened Common
  import opened Protocol

  datatype Entry<+T> = Entry(seqNo: nat, body: T)
  datatype Log<+T> = Log(seqNo: nat, buf: seq<Entry<T>>)

  /** The whole history with its sequence numbers, which start at 1. */
  function Stamped<T>(history: seq<T>): (r: seq<Entry<T>>)
    ensures |r| == |history|
    ensures forall i :: 0 <= i < |r| ==> r[i] == Entry(i + 1, history[i])
  {
    seq(|history|, i requires 0 <= i < |history| => Entry(i + 1, history[i]))
  }

  function Trim<T>(buf: seq<T>, capacity: nat): seq<T> {
    if |buf| > capacity then buf[|buf| - capacity..] else buf
  }

  /** `copy(buf, buf[from:])`: the tail moves to the front, over itself, and
      the last `from` places keep what they held. */
  function Moved<T>(buf: seq<T>, from: nat): (r: seq<T>)
    requires from <= |buf|
  {
    buf[from..] + buf[|buf| - from..]
  }

  /** Moving the tail down in place and cutting the buffer keeps its last
      `capacity` entries, although the two ranges overlap. */
  lemma MoveThenCutIsTrim<T>(buf: seq<T>, capacity: nat)
    requires |buf| > capacity
    ensures Moved(buf, |buf| - capacity)[..capacity] == Trim(buf, capacity)
  {
  }

  function Append<T>(log: Log<T>, capacity: nat, body: T): Log<T> {
    Log(log.seqNo + 1, Trim(log.buf + [Entry(log.seqNo + 1, body)], capacity))
  }

  /** The terminal event of a closing chat is appended without trimming. */
  function AppendTerminal<T>(log: Log<T>, body: T): Log<T> {
    Log(log.seqNo + 1, log.buf + [Entry(log.seqNo + 1, body)])
  }

  /** The buffered entries after `lastId`, in order. */
  function Newer<T>(buf: seq<Entry<T>>, lastId: nat): seq<Entry<T>> {
    if buf == [] then []
    else Newer(buf[..|buf| - 1], lastId)
         + if buf[|buf| - 1].seqNo > lastId then [buf[|buf| - 1]] else []
  }

  /** The replay loop. */
  method CollectNewer<T>(buf: seq<Entry<T>>, lastId: nat) returns (newer: seq<Entry<T>>)
    ensures newer == Newer(buf, lastId)
  {
    newer := [];
    var i := 0;
    while i < |buf|
      invariant 0 <= i <= |buf|
      invariant newer == Newer(buf[..i], lastId)
    {
      assert buf[..i + 1][..i] == buf[..i];
      if buf[i].seqNo > lastId { newer := newer + [buf[i]]; }
      i := i + 1;
    }
    assert buf[..i] == buf;
  }

  /** What a client that has seen `lastId` is sent, or None when it has to
      take a snapshot instead. */
  function Resume<T>(log: Log<T>, lastId: nat): Option<seq<Entry<T>>> {
    if lastId == 0 || log.buf == [] || log.buf[0].seqNo > lastId + 1 || lastId > log.seqNo then None
    else Some(Newer(log.buf, lastId))
  }

  /** The log holds the last `kept` entries of the history and nothing else. */
  ghost predicate Retains<T>(log: Log<T>, history: seq<T>, kept: nat) {
    && kept <= |history|
    && log.seqNo == |history|
    && log.buf == Stamped(history)[|history| - kept..]
  }

  /** The log after a history of publications. */
  function LogOf<T>(history: seq<T>, capacity: nat): Log<T> {
    if history == [] then Log(0, [])
    else Append(LogOf(history[..|history| - 1], capacity), capacity, history[|history| - 1])
  }

  lemma StampedPrefix<T>(history: seq<T>, body: T)
    ensures Stamped(history + [body]) == Stamped(history) + [Entry(|history| + 1, body)]
  {
  }

  lemma AppendRetains<T>(log: Log<T>, history: seq<T>, kept: nat, capacity: nat, body: T)
    requires Retains(log, history, kept)
    ensures Retains(Append(log, capacity, body), history + [body], Min(kept + 1, capacity))
    ensures Retains(AppendTerminal(log, body), history + [body], kept + 1)
  {
    StampedPrefix(history, body);
    var all := Stamped(history + [body]);
    assert log.buf + [Entry(log.seqNo + 1, body)] == all[|history| - kept..];
  }

  lemma EmptyRetains<T>(history: seq<T>)
    requires history == []
    ensures Retains(Log(0, []), history, 0)
  {
  }

  /** After every history the log is its last `capacity` entries. */
  lemma {:induction false} LogIsLastN<T>(history: seq<T>, capacity: nat)
    ensures Retains(LogOf(history, capacity), history, Min(|history|, capacity))
  {
    hide Retains, Append;
    if history == [] {
      EmptyRetains(history);
    } else {
      var prefix := history[..|history| - 1];
      LogIsLastN(prefix, capacity);
      AppendRetains(LogOf(prefix, capacity), prefix, Min(|prefix|, capacity), capacity, history[|history| - 1]);
      assert prefix + [history[|history| - 1]] == history;
    }
  }

  lemma {:induction false} NewerIsSuffix<T>(buf: seq<Entry<T>>, first: nat, lastId: nat)
    requires forall i :: 0 <= i < |buf| ==> buf[i].seqNo == first + i
    requires first <= lastId + 1 <= first + |buf|
    ensures Newer(buf, lastId) == buf[lastId + 1 - first..]
  {
    if buf != [] {
      var rest := buf[..|buf| - 1];
      if lastId + 1 == first + |buf| {
        NewerNone(buf, lastId);
      } else {
        NewerIsSuffix(rest, first, lastId);
        assert buf == rest + [buf[|buf| - 1]];
        assert buf[lastId + 1 - first..] == rest[lastId + 1 - first..] + [buf[|buf| - 1]];
      }
    }
  }

  lemma {:induction false} NewerNone<T>(buf: seq<Entry<T>>, lastId: nat)
    requires forall i :: 0 <= i < |buf| ==> buf[i].seqNo <= lastId
    ensures Newer(buf, lastId) == []
  {
    if buf != [] { NewerNone(buf[..|buf| - 1], lastId); }
  }

  /** A non-zero resume point is refused exactly when it lies beyond the log or
      one of the entries after it was evicted; otherwise the replay is exactly
      the entries after it. */
  lemma ResumeIsExact<T>(log: Log<T>, history: seq<T>, kept: nat, lastId: nat)
    requires Retains(log, history, kept)
    requires history != [] ==> kept > 0
    requires lastId > 0
    ensures Resume(log, lastId) ==
            if lastId > |history| || lastId < |history| - kept then None
            else Some(Stamped(history)[lastId..])
  {
    if |history| > 0 {
      assert log.buf[0].seqNo == |history| - kept + 1;
      if |history| - kept <= lastId <= |history| {
        NewerIsSuffix(log.buf, |history| - kept + 1, lastId);
        assert Stamped(history)[|history| - kept..][lastId - (|history| - kept)..] == Stamped(history)[lastId..];
      }
    }
  }
}
