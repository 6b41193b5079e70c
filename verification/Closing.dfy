/** What becomes of each subscriber of a chat: when it is dropped, what it is
    told, and that a close forgets nobody. */
module Closing {
  import opened Common
  import opened Protocol
  import opened EventLog
  import opened EventHub
  import opened Fanout

  lemma Extend<T(!new)>(run: seq<Action<T>>, a: Action<T>, lim: Limits)
    requires Legal(run, lim)
    ensures Legal(run + [a], lim) == Enabled(After(run, lim), a)
    ensures Legal(run + [a], lim) ==> After(run + [a], lim) == Next(After(run, lim), a, lim)
  {
    hide Enabled, Next;
    assert (run + [a])[..|run + [a]| - 1] == run;
  }

  // ------------------------------------------------------------- one channel

  /** The publisher finds the channel full. */
  predicate Overrun<T>(y: System<T>, a: Action<T>, s: SubId, room: nat) {
    a.DoPublish? && !y.hub.closed && s in y.hub.subs && s in y.hub.chans && Depth(y.hub.chans[s]) >= room
  }

  /** What a step sends to a channel. */
  function SentBy<T>(y: System<T>, a: Action<T>, s: SubId, room: nat): seq<Entry<T>>
    requires s in y.hub.chans
  {
    if Depth(y.hub.chans[s]) >= room then []
    else if a.DoPublish? && !y.hub.closed && s in y.hub.subs then [Entry(|y.history| + 1, a.body)]
    else if a.TellLast? && a.s == s && a.k in y.closers && y.closers[a.k].Telling? then [y.closers[a.k].e]
    else []
  }

  /** A step closes the channel. */
  predicate ClosedBy<T>(y: System<T>, a: Action<T>, s: SubId, room: nat) {
    || Overrun(y, a, s, room)
    || (a == DoUnsubscribe(s) && s in y.hub.subs)
    || (a.FinishOne? && a.k in y.closers && y.closers[a.k].Told? && y.closers[a.k].s == s)
  }

  /** What a step does to one channel. */
  ghost predicate Stepped<T>(y: System<T>, a: Action<T>, z: System<T>, s: SubId, room: nat) {
    && s in y.hub.chans && s in z.hub.chans
    && var c, d := y.hub.chans[s], z.hub.chans[s];
       && d.start == c.start && d.sent == c.sent + SentBy(y, a, s, room)
       && d.taken == c.taken + (if a == DoReceive(s) && Depth(c) > 0 then 1 else 0)
       && d.closed == (c.closed || ClosedBy(y, a, s, room))
  }

  lemma Parts<T>(y: System<T>, lim: Limits, s: SubId)
    requires Inv(y, lim) && s in y.hub.chans
    ensures y.hub.log.seqNo == |y.history| && Wired(y.hub)
    ensures s in y.hub.subs ==> !y.hub.chans[s].closed
    ensures forall k :: k in y.closers && y.closers[k].Telling? && s in y.closers[k].rest ==> !y.hub.chans[s].closed
    ensures forall k :: k in y.closers && y.closers[k].Told? && s == y.closers[k].s ==> !y.hub.chans[s].closed
  {
    hide ChannelOk, Apart;
  }

  /** In every reachable state a step sends to a channel, takes from it and
      closes it exactly as said above, and leaves every other channel alone. */
  lemma EachChannel<T(!new)>(run: seq<Action<T>>, a: Action<T>, lim: Limits, s: SubId)
    requires Legal(run, lim) && Legal(run + [a], lim) && s in After(run, lim).hub.chans
    ensures Stepped(After(run, lim), a, After(run + [a], lim), s, lim.room)
  {
    hide Legal, After, Enabled, Next, Stepped;
    ReachableInv(run, lim);
    Extend(run, a, lim);
    ChannelStep(After(run, lim), a, lim, s);
  }

  /** What `Parts` gives, without the invariant it comes from. */
  ghost predicate Sound<T>(y: System<T>, s: SubId) {
    && s in y.hub.chans && y.hub.log.seqNo == |y.history| && Wired(y.hub)
    && (s in y.hub.subs ==> !y.hub.chans[s].closed)
    && (forall k :: k in y.closers && y.closers[k].Telling? && s in y.closers[k].rest ==> !y.hub.chans[s].closed)
    && (forall k :: k in y.closers && y.closers[k].Told? && s == y.closers[k].s ==> !y.hub.chans[s].closed)
  }

  lemma PublishOne<T>(y: System<T>, body: T, lim: Limits, s: SubId)
    requires Sound(y, s) && Enabled(y, DoPublish(body))
    ensures Stepped(y, DoPublish(body), Next(y, DoPublish(body), lim), s, lim.room)
  {
    assert y.hub.chans[s].sent + [] == y.hub.chans[s].sent;
  }

  lemma TellOne<T>(y: System<T>, k: CloserId, t: SubId, lim: Limits, s: SubId)
    requires Sound(y, s) && Enabled(y, TellLast(k, t))
    ensures Stepped(y, TellLast(k, t), Next(y, TellLast(k, t), lim), s, lim.room)
  {
    assert y.hub.chans[s].sent + [] == y.hub.chans[s].sent;
  }

  lemma OtherOne<T>(y: System<T>, a: Action<T>, lim: Limits, s: SubId)
    requires Sound(y, s) && Enabled(y, a) && !a.DoPublish? && !a.TellLast?
    ensures Stepped(y, a, Next(y, a, lim), s, lim.room)
  {
    hide Publish, OfferLast;
    assert y.hub.chans[s].sent + [] == y.hub.chans[s].sent;
  }

  lemma ChannelStep<T>(y: System<T>, a: Action<T>, lim: Limits, s: SubId)
    requires Inv(y, lim) && Enabled(y, a) && s in y.hub.chans
    ensures Stepped(y, a, Next(y, a, lim), s, lim.room)
  {
    Parts(y, lim, s);
    hide Inv, Stepped, Next, Enabled;
    match a
    case DoPublish(body) => PublishOne(y, body, lim, s);
    case TellLast(k, t) => TellOne(y, k, t, lim, s);
    case _ => OtherOne(y, a, lim, s);
  }

  // ------------------------------------------------------------- membership

  /** Who is on the list after a step: a new subscriber of an open chat, and who
      was, unless it unsubscribed, was overrun, or the chat closed. */
  predicate Listed<T>(y: System<T>, a: Action<T>, s: SubId, room: nat) {
    if a == DoSubscribe(s) then !y.hub.closed
    else s in y.hub.subs && a != DoUnsubscribe(s) && !a.MarkClose? && !Overrun(y, a, s, room)
  }

  lemma MemberStep<T>(y: System<T>, a: Action<T>, lim: Limits, s: SubId)
    requires Inv(y, lim) && Enabled(y, a)
    ensures var z := Next(y, a, lim);
            && (s in z.hub.subs <==> Listed(y, a, s, lim.room))
            && z.hub.closed == (y.hub.closed || a.MarkClose?)
            && z.history == y.history + if (a.DoPublish? && !y.hub.closed) || a.MarkClose? then [a.body] else []
  {
    if s in y.hub.chans { Parts(y, lim, s); }
    assert Wired(y.hub);
    hide Inv;
    assert y.history + [] == y.history;
  }

  /** In every reachable state. */
  lemma ListedIff<T(!new)>(run: seq<Action<T>>, a: Action<T>, lim: Limits, s: SubId)
    requires Legal(run, lim) && Legal(run + [a], lim)
    ensures s in After(run + [a], lim).hub.subs <==> Listed(After(run, lim), a, s, lim.room)
    ensures var y, z := After(run, lim), After(run + [a], lim);
            && z.hub.closed == (y.hub.closed || a.MarkClose?)
            && z.history == y.history + if (a.DoPublish? && !y.hub.closed) || a.MarkClose? then [a.body] else []
  {
    hide Legal, After, Enabled, Next, Listed;
    ReachableInv(run, lim);
    Extend(run, a, lim);
    MemberStep(After(run, lim), a, lim, s);
  }

  // --------------------------------------------------------- nobody forgotten

  /** An open channel is on the list, or a closer has still to tell it. */
  ghost predicate Remembered<T>(y: System<T>) {
    forall s :: s in y.hub.chans && !y.hub.chans[s].closed ==>
      s in y.hub.subs || exists k :: k in y.closers && s in Owed(y.closers[k])
  }

  lemma RememberStep<T>(y: System<T>, a: Action<T>, lim: Limits)
    requires Inv(y, lim) && Enabled(y, a) && Remembered(y)
    ensures Remembered(Next(y, a, lim))
  {
    var z := Next(y, a, lim);
    forall s | s in z.hub.chans && !z.hub.chans[s].closed
      ensures s in z.hub.subs || exists k :: k in z.closers && s in Owed(z.closers[k])
    {
      if s in y.hub.chans {
        ChannelStep(y, a, lim, s);
        MemberStep(y, a, lim, s);
        StillOwed(y, a, lim, s);
      }
    }
  }

  lemma StillOwed<T>(y: System<T>, a: Action<T>, lim: Limits, s: SubId)
    requires Inv(y, lim) && Enabled(y, a) && s in y.hub.chans
    ensures var z := Next(y, a, lim);
            && (forall k :: k in y.closers && s in Owed(y.closers[k]) && !ClosedBy(y, a, s, lim.room) ==>
                  k in z.closers && s in Owed(z.closers[k]))
            && (a.MarkClose? && s in y.hub.subs ==> a.k in z.closers && s in Owed(z.closers[a.k]))
  {
    hide Inv, Publish, Subscribe, Unsubscribe, Receive, OfferLast, CloseLast;
  }

  lemma {:induction false} ReachableRemembers<T(!new)>(run: seq<Action<T>>, lim: Limits)
    requires Legal(run, lim)
    ensures Remembered(After(run, lim))
  {
    if run != [] {
      hide Enabled, Next, Remembered, Inv;
      ReachableRemembers(run[..|run| - 1], lim);
      ReachableInv(run[..|run| - 1], lim);
      RememberStep(After(run[..|run| - 1], lim), run[|run| - 1], lim);
    }
  }

  /** A closer has somebody to tell, or to finish with. */
  predicate Busy<T>(y: System<T>, k: CloserId) {
    k in y.closers && (y.closers[k].Told? || (y.closers[k].Telling? && y.closers[k].rest != {}))
  }

  /** A closing chat can always go on with whoever is left to be told, and once
      nobody is, every channel is closed and nobody listed: no subscriber waits
      for ever on a closed chat. */
  lemma NobodyForgotten<T(!new)>(run: seq<Action<T>>, lim: Limits)
    requires Legal(run, lim)
    ensures var y := After(run, lim);
            && (forall k :: Busy(y, k) && y.closers[k].Told? ==> Legal(run + [FinishOne(k)], lim))
            && (forall k, s :: Busy(y, k) && y.closers[k].Telling? && s in y.closers[k].rest ==>
                  Legal(run + [TellLast(k, s)], lim))
            && (y.hub.closed && (forall k :: !Busy(y, k)) ==>
                  y.hub.subs == {} && forall s :: s in y.hub.chans ==> y.hub.chans[s].closed)
  {
    hide Legal, After;
    ReachableInv(run, lim);
    ReachableRemembers(run, lim);
    var y := After(run, lim);
    hide LogOk, ChannelOk, Apart, Level;
    forall k | Busy(y, k) && y.closers[k].Told? ensures Legal(run + [FinishOne(k)], lim) {
      assert CloserOk(y.closers[k], y.hub, y.history) && y.closers[k].s in Owed(y.closers[k]);
      Extend(run, FinishOne(k), lim);
    }
    forall k, s | Busy(y, k) && y.closers[k].Telling? && s in y.closers[k].rest
      ensures Legal(run + [TellLast(k, s)], lim)
    {
      assert CloserOk(y.closers[k], y.hub, y.history) && s in Owed(y.closers[k]);
      Extend(run, TellLast(k, s), lim);
    }
  }

  /** Telling takes one subscriber off a closer's hands, with the closing event
      sent to it if there is room; finishing closes its channel. */
  lemma TellingEnds<T(!new)>(run: seq<Action<T>>, lim: Limits, k: CloserId, s: SubId)
    requires Legal(run, lim) && k in After(run, lim).closers && Enabled(After(run, lim), TellLast(k, s))
    ensures var told := run + [TellLast(k, s)];
            var y, t := After(run, lim), told + [FinishOne(k)];
            && Legal(told, lim) && Legal(t, lim)
            && var z := After(t, lim);
               && z.closers == y.closers[k := Telling(y.closers[k].e, y.closers[k].rest - {s})]
               && s in z.hub.chans && z.hub.chans[s].closed
               && z.hub.chans[s].sent == y.hub.chans[s].sent +
                    if Depth(y.hub.chans[s]) < lim.room then [y.closers[k].e] else []
  {
    hide Legal, After;
    var y, told := After(run, lim), TellLast(k, s);
    Extend(run, told, lim);
    Extend(run + [told], FinishOne(k), lim);
    EachChannel(run, told, lim, s);
    EachChannel(run + [told], FinishOne(k), lim, s);
    var x := After(run + [told], lim);
    assert x.hub.chans[s].sent + [] == x.hub.chans[s].sent;
    hide Publish, Subscribe, Unsubscribe, Receive, MarkClosed;
  }

  /** A close can begin and be carried through on every open chat, and on no
      closed one; the closing event then becomes part of its history. */
  lemma ClosingStarts<T(!new)>(run: seq<Action<T>>, lim: Limits, k: CloserId, body: T)
    requires Legal(run, lim) && k !in After(run, lim).closers && Wired(After(run, lim).hub)
    ensures Legal(run + [EnterClose(k)], lim)
    ensures Legal(run + [EnterClose(k)] + [MarkClose(k, body)], lim) <==> !After(run, lim).hub.closed
    ensures !After(run, lim).hub.closed ==>
              var z := After(run + [EnterClose(k)] + [MarkClose(k, body)], lim);
              z.hub.closed && z.history == After(run, lim).history + [body]
  {
    hide Legal, After;
    Extend(run, EnterClose(k), lim);
    Extend(run + [EnterClose(k)], MarkClose(k, body), lim);
  }

  /** In every reachable state anything may be published, a new channel may
      subscribe, and any channel may be read or unsubscribe. */
  lemma StepsArePossible<T(!new)>(run: seq<Action<T>>, lim: Limits, body: T, s: SubId)
    requires Legal(run, lim)
    ensures Legal(run + [DoPublish(body)], lim) && Legal(run + [DoUnsubscribe(s)], lim)
    ensures Legal(run + [DoReceive(s)], lim)
    ensures s !in After(run, lim).hub.chans ==> Legal(run + [DoSubscribe(s)], lim)
  {
    hide Legal, After, LogOk, CloserOk, Apart, ChannelOk, Level;
    ReachableInv(run, lim);
    Extend(run, DoPublish(body), lim);
    Extend(run, DoUnsubscribe(s), lim);
    Extend(run, DoReceive(s), lim);
    Extend(run, DoSubscribe(s), lim);
  }
}
