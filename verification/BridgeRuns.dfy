/** The bridge under any number of concurrent and repeated requests. */
module BridgeRuns {
  import opened Protocol
  import opened Bridge

  datatype Answer = Replied(r: Response) | Cancelled

  /** The table with the requests around it. Every admission gets a serial
      number: `admitted` and `outcomes` are its key and result, `owners` the
      request that runs its handler, and `pointers` the entries the table
      retains. Request `n` asked for `keys[n]` and holds entry `asked[n]`. */
  datatype World = World(
    table: Table, pointers: map<string, nat>, admitted: seq<string>, outcomes: seq<Option<Response>>, owners: seq<nat>,
    keys: seq<string>, asked: seq<nat>, waiting: set<nat>, answers: map<nat, Answer>)

  const NEW_WORLD := World(Table(map[], []), map[], [], [], [], [], [], {}, map[])

  datatype Step =
    | Ask(key: string)
    | Finish(serial: nat, calls: seq<Call>)
    | Reply(n: nat)
    | Cancel(n: nat)

  /** The pointers of the keys that are still in the table. */
  function Restricted(pointers: map<string, nat>, results: map<string, Option<Response>>): map<string, nat> {
    map k | k in pointers && k in results :: pointers[k]
  }

  predicate Can(w: World, s: Step) {
    match s
    case Ask(_) => true
    case Finish(serial, _) =>
      serial < |w.outcomes| && serial < |w.admitted| && serial < |w.owners| && w.outcomes[serial].None?
    case Reply(n) => n in w.waiting && n < |w.asked| && w.asked[n] < |w.outcomes| && w.outcomes[w.asked[n]].Some?
    case Cancel(n) => n in w.waiting
  }

  function Next(w: World, s: Step): World
    requires Can(w, s)
  {
    match s
    case Ask(key) =>
      if key in w.pointers then
        w.(keys := w.keys + [key], asked := w.asked + [w.pointers[key]], waiting := w.waiting + {|w.asked|})
      else
        World(Admitted(w.table, key), w.pointers[key := |w.admitted|], w.admitted + [key], w.outcomes + [None],
              w.owners + [|w.asked|], w.keys + [key], w.asked + [|w.admitted|], w.waiting, w.answers)
    case Finish(serial, calls) =>
      var r := Capture(calls);
      var table := Finished(w.table, w.admitted[serial], r);
      w.(table := table, pointers := Restricted(w.pointers, table.results),
         outcomes := w.outcomes[serial := Some(r)], answers := w.answers[w.owners[serial] := Replied(r)])
    case Reply(n) => w.(waiting := w.waiting - {n}, answers := w.answers[n := Replied(w.outcomes[w.asked[n]].value)])
    case Cancel(n) => w.(waiting := w.waiting - {n}, answers := w.answers[n := Cancelled])
  }

  ghost predicate Legal(run: seq<Step>)
    decreases |run|, 0
  {
    run == [] || (Legal(run[..|run| - 1]) && Can(After(run[..|run| - 1]), run[|run| - 1]))
  }

  ghost function After(run: seq<Step>): World
    requires Legal(run)
    decreases |run|, 1
  {
    if run == [] then NEW_WORLD else Next(After(run[..|run| - 1]), run[|run| - 1])
  }

  // ---------------------------------------------------------------- pruning

  /** Positions in the list, counted from `base`, agree with a ranking of keys. */
  ghost predicate Ranked(t: Table, rank: map<string, nat>, base: nat) {
    && (forall i :: 0 <= i < |t.ids| ==> t.ids[i] in t.results && t.ids[i] in rank && rank[t.ids[i]] == base + i)
    && (forall k :: k in t.results ==> k in rank && base <= rank[k] < base + |t.ids| && t.ids[rank[k] - base] == k)
  }

  /** What pruning leaves: everything but the first `n`, all of them finished,
      and if there were any then a full window. */
  ghost predicate Cut(t: Table, u: Table, n: nat) {
    && n <= |t.ids| && |u.ids| == |t.ids| - n
    && (forall i :: 0 <= i < |u.ids| ==> u.ids[i] == t.ids[n + i])
    && (forall k :: k in u.results ==> k in t.results && u.results[k] == t.results[k])
    && (forall i :: 0 <= i < n ==> t.ids[i] in t.results && t.results[t.ids[i]].Some?)
    && (n > 0 ==> |u.ids| >= WINDOW)
    && (|u.ids| > WINDOW ==> u.ids[0] in u.results && u.results[u.ids[0]].None?)
  }

  lemma {:induction false} PruneCuts(t: Table, rank: map<string, nat>, base: nat) returns (n: nat)
    requires Ranked(t, rank, base)
    ensures Cut(t, Pruned(t), n) && Ranked(Pruned(t), rank, base + n)
    decreases |t.ids|
  {
    hide Cut, Ranked, Pruned;
    n := 0;
    PruneStep(t);
    if |t.ids| > WINDOW { HeadRanked(t, rank, base); }
    if |t.ids| > WINDOW && t.results[t.ids[0]].Some? {
      var u := WithoutHead(t);
      var m := PruneCuts(u, rank, base + 1);
      n := m + 1;
      CutMore(t, u, Pruned(u), m);
    } else {
      NothingCut(t);
    }
  }

  function WithoutHead(t: Table): Table
    requires t.ids != []
  {
    Table(t.results - {t.ids[0]}, t.ids[1..])
  }

  lemma PruneStep(t: Table)
    ensures Pruned(t) == if |t.ids| > WINDOW && t.ids[0] in t.results && t.results[t.ids[0]].Some?
                         then Pruned(WithoutHead(t)) else t
  {
  }

  lemma HeadRanked(t: Table, rank: map<string, nat>, base: nat)
    requires Ranked(t, rank, base) && t.ids != []
    ensures t.ids[0] in t.results && Ranked(WithoutHead(t), rank, base + 1)
  {
  }

  lemma NothingCut(t: Table)
    requires |t.ids| > WINDOW ==> t.ids[0] in t.results && t.results[t.ids[0]].None?
    ensures Cut(t, t, 0)
  {
  }

  lemma CutMore(t: Table, u: Table, v: Table, m: nat)
    requires |t.ids| > WINDOW && u.ids == t.ids[1..] && t.ids[0] in t.results && t.results[t.ids[0]].Some?
    requires forall k :: k in u.results ==> k in t.results && u.results[k] == t.results[k]
    requires Cut(u, v, m)
    ensures Cut(t, v, m + 1)
  {
    assert forall i :: 1 <= i < m + 1 ==> t.ids[i] == u.ids[i - 1];
  }

  // -------------------------------------------------------------- invariants

  /** How many admissions have been evicted. */
  function Evicted(w: World): nat {
    if |w.table.ids| <= |w.admitted| then |w.admitted| - |w.table.ids| else 0
  }

  /** The list holds the latest admissions; whatever it evicted had finished,
      and left a full window behind. */
  ghost predicate ListOk(w: World) {
    && |w.outcomes| == |w.admitted| && |w.table.ids| <= |w.admitted|
    && (forall i :: 0 <= i < |w.table.ids| ==> w.table.ids[i] == w.admitted[Evicted(w) + i])
    && (forall s :: 0 <= s < Evicted(w) ==> w.outcomes[s].Some?)
    && (Evicted(w) > 0 ==> |w.table.ids| >= WINDOW)
  }

  /** The map points each retained key at its own admission. */
  ghost predicate LinksOk(w: World) {
    && w.pointers.Keys == w.table.results.Keys
    && Ranked(w.table, w.pointers, Evicted(w))
    && (forall k :: k in w.pointers ==> w.pointers[k] < |w.outcomes| && w.table.results[k] == w.outcomes[w.pointers[k]])
  }

  ghost predicate WindowOk(w: World) { ListOk(w) && LinksOk(w) }

  /** A key is admitted again only after its first run has finished and a full
      window of later keys came in between. */
  ghost predicate SpacedOut(w: World) {
    && |w.outcomes| == |w.admitted|
    && forall s, t :: 0 <= s < t < |w.admitted| && w.admitted[s] == w.admitted[t] ==>
         t - s > WINDOW && w.outcomes[s].Some?
  }

  lemma AdmitKeepsWindow(w: World, key: string)
    requires WindowOk(w) && key !in w.pointers
    ensures WindowOk(Next(w, Ask(key)))
  {
    hide ListOk, Ranked;
    var z := Next(w, Ask(key));
    AdmitKeepsList(w, key);
    RankedGrows(w.table, w.pointers, Evicted(w), key, z.table, z.pointers);
  }

  lemma AdmitKeepsList(w: World, key: string)
    requires ListOk(w) && key !in w.pointers
    ensures ListOk(Next(w, Ask(key))) && Evicted(Next(w, Ask(key))) == Evicted(w)
    ensures |w.admitted| == Evicted(w) + |w.table.ids| == |w.outcomes|
  {
  }

  lemma RankedGrows(t: Table, rank: map<string, nat>, base: nat, key: string, u: Table, more: map<string, nat>)
    requires Ranked(t, rank, base) && key !in t.results
    requires u == Admitted(t, key) && more == rank[key := base + |t.ids|]
    ensures Ranked(u, more, base)
  {
  }

  lemma AdmitSpacesOut(w: World, key: string)
    requires WindowOk(w) && SpacedOut(w) && key !in w.pointers
    ensures SpacedOut(Next(w, Ask(key)))
  {
    forall s | Evicted(w) <= s < |w.admitted| ensures w.admitted[s] in w.pointers {
      WindowHasPointer(w, s);
    }
    hide Ranked;
  }

  lemma WindowHasPointer(w: World, s: nat)
    requires WindowOk(w) && Evicted(w) <= s < |w.admitted|
    ensures w.admitted[s] in w.pointers && w.pointers[w.admitted[s]] == s
  {
    assert w.table.ids[s - Evicted(w)] == w.admitted[s];
  }

  /** A run in progress is always still in the table. */
  lemma RunningIsRetained(w: World, serial: nat)
    requires WindowOk(w) && serial < |w.outcomes| && w.outcomes[serial].None?
    ensures Evicted(w) <= serial && w.admitted[serial] in w.table.results
    ensures w.admitted[serial] in w.pointers && w.pointers[w.admitted[serial]] == serial
  {
    assert w.table.ids[serial - Evicted(w)] == w.admitted[serial];
  }

  lemma FinishKeepsWindow(w: World, serial: nat, calls: seq<Call>)
    requires WindowOk(w) && Can(w, Finish(serial, calls))
    ensures WindowOk(Next(w, Finish(serial, calls)))
    ensures var t := Next(w, Finish(serial, calls)).table;
            |t.ids| > WINDOW ==> t.ids[0] in t.results && t.results[t.ids[0]].None?
  {
    hide Capture, Pruned, Ranked, Cut, WindowOk;
    var key, r := w.admitted[serial], Capture(calls);
    RunningIsRetained(w, serial);
    var t := w.table.(results := w.table.results[key := Some(r)]);
    ResultRanked(w, serial, r);
    var n := PruneCuts(t, w.pointers, Evicted(w));
    var z := Next(w, Finish(serial, calls));
    CutKeepsWindow(w, z, serial, r, t, n);
    assert |z.table.ids| > WINDOW ==> z.table.ids[0] in z.table.results && z.table.results[z.table.ids[0]].None? by {
      CutHead(t, z.table, n);
    }
  }

  lemma ResultRanked(w: World, serial: nat, r: Response)
    requires WindowOk(w) && serial < |w.admitted| && w.admitted[serial] in w.table.results
    ensures Ranked(w.table.(results := w.table.results[w.admitted[serial] := Some(r)]), w.pointers, Evicted(w))
  {
  }

  lemma CutHead(t: Table, u: Table, n: nat)
    requires Cut(t, u, n)
    ensures |u.ids| > WINDOW ==> u.ids[0] in u.results && u.results[u.ids[0]].None?
  {
  }

  lemma RankedInside(t: Table, rank: map<string, nat>, base: nat, small: map<string, nat>)
    requires Ranked(t, rank, base)
    requires small == Restricted(rank, t.results)
    ensures Ranked(t, small, base) && small.Keys == t.results.Keys
  {
    RestrictedFacts(rank, t.results);
    hide Restricted;
  }

  lemma RestrictedFacts(rank: map<string, nat>, results: map<string, Option<Response>>)
    ensures var small := Restricted(rank, results);
            && (forall k :: k in small <==> k in rank && k in results)
            && (forall k :: k in small ==> small[k] == rank[k])
  {
  }

  lemma CutKeepsWindow(w: World, z: World, serial: nat, r: Response, t: Table, n: nat)
    requires WindowOk(w) && serial < |w.admitted|
    requires w.admitted[serial] in w.pointers && w.pointers[w.admitted[serial]] == serial
    requires t == Table(w.table.results[w.admitted[serial] := Some(r)], w.table.ids)
    requires Cut(t, z.table, n) && Ranked(z.table, w.pointers, Evicted(w) + n)
    requires z.admitted == w.admitted && z.outcomes == w.outcomes[serial := Some(r)]
    requires z.pointers == Restricted(w.pointers, z.table.results)
    ensures WindowOk(z)
  {
    hide Ranked;
    CutList(w, z, serial, r, t, n);
    CutPointers(w, z, serial, r, t, n);
    hide Cut, ListOk;
    RankedInside(z.table, w.pointers, Evicted(w) + n, z.pointers);
  }

  lemma CutList(w: World, z: World, serial: nat, r: Response, t: Table, n: nat)
    requires WindowOk(w) && serial < |w.admitted|
    requires w.admitted[serial] in w.pointers && w.pointers[w.admitted[serial]] == serial
    requires t == Table(w.table.results[w.admitted[serial] := Some(r)], w.table.ids)
    requires Cut(t, z.table, n)
    requires z.admitted == w.admitted && z.outcomes == w.outcomes[serial := Some(r)]
    ensures ListOk(z) && Evicted(z) == Evicted(w) + n
  {
    hide LinksOk, Ranked;
    CutDone(w, z, serial, r, t, n);
  }

  lemma CutPointers(w: World, z: World, serial: nat, r: Response, t: Table, n: nat)
    requires WindowOk(w) && serial < |w.admitted|
    requires w.admitted[serial] in w.pointers && w.pointers[w.admitted[serial]] == serial
    requires t == Table(w.table.results[w.admitted[serial] := Some(r)], w.table.ids)
    requires Cut(t, z.table, n) && z.outcomes == w.outcomes[serial := Some(r)]
    requires z.pointers == Restricted(w.pointers, z.table.results)
    ensures forall k :: k in z.pointers ==>
              k in z.table.results && z.pointers[k] < |z.outcomes| && z.table.results[k] == z.outcomes[z.pointers[k]]
  {
    hide Ranked;
    forall k | k in z.pointers
      ensures k in z.table.results && z.pointers[k] < |z.outcomes| && z.table.results[k] == z.outcomes[z.pointers[k]]
    {
      PointerHasKey(w, k);
    }
  }

  lemma CutDone(w: World, z: World, serial: nat, r: Response, t: Table, n: nat)
    requires WindowOk(w) && serial < |w.admitted|
    requires t == Table(w.table.results[w.admitted[serial] := Some(r)], w.table.ids)
    requires Cut(t, z.table, n) && z.outcomes == w.outcomes[serial := Some(r)]
    requires w.admitted[serial] in w.pointers && w.pointers[w.admitted[serial]] == serial
    ensures forall s :: 0 <= s < Evicted(w) + n ==> z.outcomes[s].Some?
  {
    hide Ranked;
    forall s | Evicted(w) <= s < Evicted(w) + n ensures z.outcomes[s].Some? {
      WindowHasPointer(w, s);
      assert t.ids[s - Evicted(w)] == w.admitted[s];
    }
  }

  lemma FinishSpacesOut(w: World, serial: nat, calls: seq<Call>)
    requires SpacedOut(w) && Can(w, Finish(serial, calls))
    ensures SpacedOut(Next(w, Finish(serial, calls)))
  {
    hide Capture, Finished;
  }

  // ---------------------------------------------------------------- requests

  predicate Runs(w: World, n: nat)
    requires n < |w.asked| && w.asked[n] < |w.outcomes| && w.asked[n] < |w.owners|
  {
    w.owners[w.asked[n]] == n && w.outcomes[w.asked[n]].None?
  }

  /** Request `n` is answered, waiting, or running the handler. */
  ghost predicate Placed(w: World, n: nat) {
    && n < |w.asked| && n < |w.keys|
    && w.asked[n] < |w.outcomes| && w.asked[n] < |w.owners| && w.asked[n] < |w.admitted|
    && w.admitted[w.asked[n]] == w.keys[n]
    && (n in w.answers ==> n !in w.waiting && !Runs(w, n))
    && (n in w.waiting ==> w.owners[w.asked[n]] != n)
    && (n in w.answers || n in w.waiting || Runs(w, n))
    && (n in w.answers && w.answers[n].Replied? ==> w.outcomes[w.asked[n]] == Some(w.answers[n].r))
    && (n in w.answers && w.answers[n].Cancelled? ==> w.owners[w.asked[n]] != n)
  }

  ghost predicate Owned(w: World, s: nat) {
    s < |w.owners| && w.owners[s] < |w.asked| && w.asked[w.owners[s]] == s
  }

  ghost predicate RequestsOk(w: World) {
    && |w.keys| == |w.asked| && |w.outcomes| == |w.admitted| == |w.owners|
    && (forall n :: 0 <= n < |w.asked| ==> Placed(w, n))
    && (forall n :: n in w.waiting || n in w.answers ==> n < |w.asked|)
    && (forall s :: 0 <= s < |w.owners| ==> Owned(w, s))
  }

  lemma NextKeepsRequests(w: World, s: Step)
    requires WindowOk(w) && RequestsOk(w) && Can(w, s)
    ensures RequestsOk(Next(w, s))
  {
    hide WindowOk, Placed, Next, Capture, Finished;
    if s.Ask? && s.key in w.pointers {
      PointerHasKey(w, s.key);
      assert Owned(w, w.pointers[s.key]);
    }
    if s.Finish? { assert Owned(w, s.serial); }
    NextFacts(w, s);
    var z := Next(w, s);
    forall n | 0 <= n < |z.asked| ensures Placed(z, n) {
      if n < |w.asked| { assert Placed(w, n); }
      if s.Finish? { assert Owned(w, s.serial); }
      PlacedStays(w, s, n);
    }
    forall i | 0 <= i < |z.owners| ensures Owned(z, i) {
      if i < |w.owners| { assert Owned(w, i); }
      OwnedStays(w, s, i);
    }
  }

  lemma PointerHasKey(w: World, key: string)
    requires WindowOk(w) && key in w.pointers
    ensures w.pointers[key] < |w.admitted| && w.admitted[w.pointers[key]] == key
  {
    assert w.table.ids[w.pointers[key] - Evicted(w)] == key;
  }

  lemma NextFacts(w: World, s: Step)
    requires Can(w, s) && |w.keys| == |w.asked| && |w.outcomes| == |w.admitted| == |w.owners|
    requires forall n :: n in w.waiting || n in w.answers ==> n < |w.asked|
    requires s.Finish? ==> w.owners[s.serial] < |w.asked|
    ensures var z := Next(w, s);
            && |z.keys| == |z.asked| && |z.outcomes| == |z.admitted| == |z.owners|
            && (forall n :: n in z.waiting || n in z.answers ==> n < |z.asked|)
            && |w.asked| <= |z.asked| <= |w.asked| + 1 && |w.owners| <= |z.owners| <= |w.owners| + 1
  {
    hide Capture, Finished, Admitted;
  }

  lemma PlacedStays(w: World, s: Step, n: nat)
    requires Can(w, s) && n < |Next(w, s).asked|
    requires |w.keys| == |w.asked| && |w.outcomes| == |w.admitted| == |w.owners|
    requires n < |w.asked| ==> Placed(w, n)
    requires forall m :: m in w.waiting || m in w.answers ==> m < |w.asked|
    requires s.Ask? && s.key in w.pointers ==>
               w.pointers[s.key] < |w.admitted| && w.admitted[w.pointers[s.key]] == s.key
    requires s.Ask? && s.key in w.pointers ==> w.owners[w.pointers[s.key]] < |w.asked|
    requires s.Finish? ==> Owned(w, s.serial)
    ensures Placed(Next(w, s), n)
  {
    hide Capture, Finished, Admitted;
  }

  lemma OwnedStays(w: World, s: Step, i: nat)
    requires Can(w, s) && i < |Next(w, s).owners| && |w.outcomes| == |w.admitted| == |w.owners|
    requires i < |w.owners| ==> Owned(w, i)
    ensures Owned(Next(w, s), i)
  {
    hide Capture, Finished, Admitted;
  }

  ghost predicate Inv(w: World) { WindowOk(w) && SpacedOut(w) && RequestsOk(w) }

  lemma NextKeeps(w: World, s: Step)
    requires Inv(w) && Can(w, s)
    ensures Inv(Next(w, s))
  {
    hide WindowOk, SpacedOut, RequestsOk;
    NextKeepsRequests(w, s);
    match s {
      case Ask(key) =>
        if key !in w.pointers {
          AdmitKeepsWindow(w, key);
          AdmitSpacesOut(w, key);
        } else {
          OthersKeep(w, s);
        }
      case Finish(serial, calls) =>
        FinishKeepsWindow(w, serial, calls);
        FinishSpacesOut(w, serial, calls);
      case _ =>
        OthersKeep(w, s);
    }
  }

  lemma OthersKeep(w: World, s: Step)
    requires WindowOk(w) && SpacedOut(w) && Can(w, s)
    requires s.Reply? || s.Cancel? || (s.Ask? && s.key in w.pointers)
    ensures WindowOk(Next(w, s)) && SpacedOut(Next(w, s))
  {
    var z := Next(w, s);
    assert z.table == w.table && z.pointers == w.pointers && z.admitted == w.admitted && z.outcomes == w.outcomes by {
      hide Capture, Finished;
    }
    hide Next, Can;
    SameWindow(w, z);
  }

  lemma SameWindow(w: World, z: World)
    requires WindowOk(w) && SpacedOut(w)
    requires z.table == w.table && z.pointers == w.pointers && z.admitted == w.admitted && z.outcomes == w.outcomes
    ensures WindowOk(z) && SpacedOut(z)
  {
    hide Ranked;
  }

  lemma {:induction false} Reachable(run: seq<Step>)
    requires Legal(run)
    ensures Inv(After(run))
  {
    if run != [] {
      hide Inv, Next, Can;
      Reachable(run[..|run| - 1]);
      NextKeeps(After(run[..|run| - 1]), run[|run| - 1]);
    }
  }

  // ------------------------------------------------------------ main results

  /** The handler runs once per key while the key is retained: two runs for one
      key lie more than 4096 admissions apart, and the first had finished and
      was gone from the table. */
  lemma HandlerRunsOnce(run: seq<Step>, s: nat, t: nat)
    requires Legal(run) && s < t < |After(run).admitted| && After(run).admitted[s] == After(run).admitted[t]
    ensures var w := After(run);
            && t - s > WINDOW
            && s < |w.outcomes| && w.outcomes[s].Some?
            && s < |w.admitted| - |w.table.ids|
  {
    Reachable(run);
    Repeated(After(run), s, t);
  }

  lemma WindowLengths(w: World)
    requires WindowOk(w)
    ensures |w.table.ids| <= |w.admitted| && |w.outcomes| == |w.admitted|
  {
  }

  lemma Repeated(w: World, s: nat, t: nat)
    requires Inv(w) && s < t < |w.admitted| && w.admitted[s] == w.admitted[t]
    ensures t - s > WINDOW && w.outcomes[s].Some? && s < |w.admitted| - |w.table.ids|
  {
    hide RequestsOk, WindowOk;
    WindowLengths(w);
    if s >= Evicted(w) {
      WindowHasPointer(w, s);
      WindowHasPointer(w, t);
    }
  }

  /** Requests for one key share an entry, unless more than 4096 admissions lie
      between their entries; sharing one, they get the same reply. */
  lemma RepliesAgree(run: seq<Step>, m: nat, n: nat)
    requires Legal(run) && m < |After(run).keys| && n < |After(run).keys|
    requires After(run).keys[m] == After(run).keys[n]
    ensures var w := After(run);
            && m < |w.asked| && n < |w.asked|
            && (w.asked[m] == w.asked[n] || w.asked[m] - w.asked[n] > WINDOW || w.asked[n] - w.asked[m] > WINDOW)
            && (w.asked[m] == w.asked[n] ==> SameReply(w, m, n))
  {
    Reachable(run);
    var w := After(run);
    Agreement(w, m, n);
  }

  /** If both requests were answered by the handler, the answers are equal. */
  predicate SameReply(w: World, m: nat, n: nat) {
    m in w.answers && n in w.answers && w.answers[m].Replied? && w.answers[n].Replied? ==> w.answers[m] == w.answers[n]
  }

  lemma Agreement(w: World, m: nat, n: nat)
    requires Inv(w) && m < |w.keys| && n < |w.keys| && w.keys[m] == w.keys[n]
    ensures m < |w.asked| && n < |w.asked|
    ensures w.asked[m] == w.asked[n] || w.asked[m] - w.asked[n] > WINDOW || w.asked[n] - w.asked[m] > WINDOW
    ensures w.asked[m] == w.asked[n] ==> SameReply(w, m, n)
  {
    hide WindowOk, Owned;
    assert Placed(w, m) && Placed(w, n);
  }

  /** Every request is at any time exactly one of answered, waiting, or running
      the handler, and only one that does not run it can be cancelled. */
  lemma EveryRequestIsPlaced(run: seq<Step>, n: nat)
    requires Legal(run) && n < |After(run).asked|
    ensures Placed(After(run), n)
  {
    Reachable(run);
    hide WindowOk, SpacedOut, Placed;
  }

  /** The id list is the table's keys in order of admission, without repeats;
      what is gone was finished and had at least 4096 keys admitted after it. */
  lemma EvictionIsOrderly(run: seq<Step>)
    requires Legal(run)
    ensures Orderly(After(run))
  {
    Reachable(run);
    InvIsOrderly(After(run));
  }

  ghost predicate Orderly(w: World) {
    && |w.table.ids| <= |w.admitted| && w.table.ids == w.admitted[|w.admitted| - |w.table.ids|..]
    && (forall i, j :: 0 <= i < j < |w.table.ids| ==> w.table.ids[i] != w.table.ids[j])
    && (forall k :: k in w.table.results <==> k in w.table.ids)
    && |w.outcomes| == |w.admitted|
    && (forall s :: 0 <= s < |w.admitted| - |w.table.ids| ==> GoneRightly(w, s))
  }

  /** Finished, with a full window of keys admitted after it. */
  ghost predicate GoneRightly(w: World, s: nat) {
    s < |w.outcomes| && w.outcomes[s].Some? && |w.admitted| - 1 - s >= WINDOW
  }

  lemma InvIsOrderly(w: World)
    requires Inv(w)
    ensures Orderly(w)
  {
    hide ListOk, Ranked, LinksOk, WindowOk, SpacedOut, RequestsOk, Inv, Evicted, GoneRightly;
    InvParts(w);
    ListIsSuffix(w);
    EvictedAreDone(w);
    ListIsDistinct(w);
  }

  lemma ListIsDistinct(w: World)
    requires Ranked(w.table, w.pointers, Evicted(w))
    ensures forall i, j :: 0 <= i < j < |w.table.ids| ==> w.table.ids[i] != w.table.ids[j]
    ensures forall k :: k in w.table.results <==> k in w.table.ids
  {
    hide Ranked, Evicted;
    RankedIsDistinct(w.table, w.pointers, Evicted(w));
  }

  lemma InvParts(w: World)
    requires Inv(w)
    ensures ListOk(w) && Ranked(w.table, w.pointers, Evicted(w))
  {
    hide ListOk, Ranked, SpacedOut, RequestsOk;
  }

  lemma EvictedAreDone(w: World)
    requires ListOk(w)
    ensures |w.table.ids| <= |w.admitted| && |w.outcomes| == |w.admitted|
    ensures forall s :: 0 <= s < |w.admitted| - |w.table.ids| ==> GoneRightly(w, s)
  {
  }

  lemma ListIsSuffix(w: World)
    requires ListOk(w)
    ensures w.table.ids == w.admitted[|w.admitted| - |w.table.ids|..]
  {
  }

  lemma RankedIsDistinct(t: Table, rank: map<string, nat>, base: nat)
    requires Ranked(t, rank, base)
    ensures forall i, j :: 0 <= i < j < |t.ids| ==> t.ids[i] != t.ids[j]
    ensures forall k :: k in t.results <==> k in t.ids
  {
    forall k | k in t.results ensures k in t.ids {
      assert t.ids[rank[k] - base] == k;
    }
  }

  /** Finishing a run leaves at most 4096 keys, or an unfinished one at the head. */
  lemma WindowIsBounded(run: seq<Step>, serial: nat, calls: seq<Call>)
    requires Legal(run) && Can(After(run), Finish(serial, calls))
    ensures var t := Next(After(run), Finish(serial, calls)).table;
            |t.ids| > WINDOW ==> t.ids[0] in t.results && t.results[t.ids[0]].None?
  {
    hide WindowOk, SpacedOut, RequestsOk, Next, Can;
    Reachable(run);
    FinishKeepsWindow(After(run), serial, calls);
  }

  // ------------------------------------------------- replies and their calls

  /** The `i`-th step finishes the run of an entry. */
  predicate FinishedAt(run: seq<Step>, serial: nat, i: int) {
    0 <= i < |run| && run[i].Finish? && run[i].serial == serial
  }

  ghost predicate FinishOk(w: World, run: seq<Step>, serial: nat) {
    && (forall i :: FinishedAt(run, serial, i) ==>
          serial < |w.outcomes| && w.outcomes[serial] == Some(Capture(run[i].calls)))
    && (forall i, j :: FinishedAt(run, serial, i) && FinishedAt(run, serial, j) ==> i == j)
    && (serial < |w.outcomes| && w.outcomes[serial].Some? ==> exists i :: FinishedAt(run, serial, i))
  }

  lemma OutcomeStep(w: World, s: Step, serial: nat)
    requires Can(w, s) && |w.outcomes| == |w.admitted|
    ensures var z := Next(w, s);
            && |w.outcomes| <= |z.outcomes|
            && (s.Finish? && s.serial == serial ==>
                  serial < |w.outcomes| && w.outcomes[serial].None? && z.outcomes[serial] == Some(Capture(s.calls)))
            && (!(s.Finish? && s.serial == serial) ==>
                  && (serial < |w.outcomes| ==> z.outcomes[serial] == w.outcomes[serial])
                  && (|w.outcomes| <= serial < |z.outcomes| ==> z.outcomes[serial].None?))
  {
    hide Capture, Finished, Admitted;
  }

  lemma FinishSnoc(w: World, z: World, run: seq<Step>, s: Step, serial: nat)
    requires FinishOk(w, run, serial) && |w.outcomes| <= |z.outcomes|
    requires s.Finish? && s.serial == serial ==>
               serial < |w.outcomes| && w.outcomes[serial].None? && z.outcomes[serial] == Some(Capture(s.calls))
    requires !(s.Finish? && s.serial == serial) ==>
               && (serial < |w.outcomes| ==> z.outcomes[serial] == w.outcomes[serial])
               && (|w.outcomes| <= serial < |z.outcomes| ==> z.outcomes[serial].None?)
    ensures FinishOk(z, run + [s], serial)
  {
    hide Capture;
    var all, n := run + [s], |run|;
    assert all[n] == s && forall i :: 0 <= i < n ==> all[i] == run[i];
    assert forall i :: i != n ==> (FinishedAt(all, serial, i) <==> FinishedAt(run, serial, i));
    assert FinishedAt(all, serial, n) <==> s.Finish? && s.serial == serial;
  }

  /** An entry has a result exactly once a step has finished it, just one does,
      and the result is what that step's calls leave. */
  lemma {:induction false} FinishesOnce(run: seq<Step>, serial: nat)
    requires Legal(run)
    ensures FinishOk(After(run), run, serial)
  {
    if run != [] {
      hide Next, Can, Capture, FinishOk, WindowOk, SpacedOut, RequestsOk;
      var init, last := run[..|run| - 1], run[|run| - 1];
      FinishesOnce(init, serial);
      Reachable(init);
      WindowLengths(After(init));
      OutcomeStep(After(init), last, serial);
      FinishSnoc(After(init), After(run), init, last, serial);
      assert run == init + [last];
    }
  }

  /** Whoever is answered by the handler is told what the handler did: the reply
      is the one that the calls of the single step finishing its entry describe. */
  lemma RepliesAreDescribed(run: seq<Step>, n: nat) returns (i: nat)
    requires Legal(run) && n in After(run).answers && After(run).answers[n].Replied?
    ensures n < |After(run).asked| && FinishedAt(run, After(run).asked[n], i)
    ensures forall j :: FinishedAt(run, After(run).asked[n], j) ==> j == i
    ensures Describes(run[i].calls, After(run).answers[n].r)
  {
    hide WindowOk, SpacedOut, Describes, Capture, Legal, After;
    Reachable(run);
    var w := After(run);
    assert Placed(w, n);
    FinishesOnce(run, w.asked[n]);
    i :| FinishedAt(run, w.asked[n], i);
    CaptureIsDescribed(run[i].calls);
  }

  function AskedKeys(run: seq<Step>): seq<string> {
    if run == [] then []
    else AskedKeys(run[..|run| - 1]) + if run[|run| - 1].Ask? then [run[|run| - 1].key] else []
  }

  /** The requests are those that were made, in order. */
  lemma {:induction false} EveryRequestIsKnown(run: seq<Step>)
    requires Legal(run)
    ensures After(run).keys == AskedKeys(run)
  {
    if run != [] {
      hide Capture, Finished, Admitted;
      EveryRequestIsKnown(run[..|run| - 1]);
    }
  }

  ghost predicate AnswerOk(w: World, run: seq<Step>, n: nat) {
    && n < |w.asked| && w.asked[n] < |w.owners|
    && (w.owners[w.asked[n]] != n ==> (n in w.answers <==> Reply(n) in run || Cancel(n) in run))
    && (Reply(n) in run || Cancel(n) in run ==> n in w.answers && w.owners[w.asked[n]] != n)
    && (n in w.answers ==> (w.answers[n].Cancelled? <==> Cancel(n) in run))
  }

  lemma AnswerStep(w: World, run: seq<Step>, s: Step, n: nat)
    requires Can(w, s) && RequestsOk(w) && RequestsOk(Next(w, s)) && n < |Next(w, s).asked|
    requires n < |w.asked| ==> AnswerOk(w, run, n)
    requires n >= |w.asked| ==> Reply(n) !in run && Cancel(n) !in run
    ensures AnswerOk(Next(w, s), run + [s], n)
  {
    hide Capture, Finished, Admitted, Placed, Owned;
    var z := Next(w, s);
    assert Reply(n) in run + [s] <==> Reply(n) in run || s == Reply(n);
    assert Cancel(n) in run + [s] <==> Cancel(n) in run || s == Cancel(n);
    assert Placed(z, n) && (n < |w.asked| ==> Placed(w, n));
    if s.Finish? {
      assert Owned(w, s.serial);
      OwnedFacts(w, s.serial);
    }
    PlacedFacts(w, z, n);
  }

  lemma OwnedFacts(w: World, serial: nat)
    requires Owned(w, serial)
    ensures serial < |w.owners| && w.owners[serial] < |w.asked| && w.asked[w.owners[serial]] == serial
  {
  }

  lemma PlacedFacts(w: World, z: World, n: nat)
    ensures Placed(z, n) ==> n < |z.asked| && z.asked[n] < |z.owners|
    ensures Placed(w, n) ==> n < |w.asked| && w.asked[n] < |w.owners| && (n in w.answers ==> n !in w.waiting)
    ensures Placed(w, n) && n in w.waiting ==> w.owners[w.asked[n]] != n
  {
  }

  lemma LastStep(run: seq<Step>)
    requires Legal(run) && run != []
    ensures var init, last := run[..|run| - 1], run[|run| - 1];
            Legal(init) && Can(After(init), last) && After(run) == Next(After(init), last)
  {
    hide Next, Can;
  }

  lemma NothingAsked()
    ensures Legal([]) && |After([]).asked| == 0
  {
  }

  lemma RequestsAreOk(run: seq<Step>)
    requires Legal(run)
    ensures RequestsOk(After(run))
  {
    hide WindowOk, SpacedOut, RequestsOk, Legal, After;
    Reachable(run);
  }

  lemma {:induction false} AnswersOk(run: seq<Step>, n: nat)
    requires Legal(run)
    ensures n < |After(run).asked| ==> AnswerOk(After(run), run, n)
    ensures n >= |After(run).asked| ==> Reply(n) !in run && Cancel(n) !in run
  {
    hide Next, Can, RequestsOk, AnswerOk, Legal, After;
    if run == [] {
      NothingAsked();
    } else {
      var init, last := run[..|run| - 1], run[|run| - 1];
      LastStep(run);
      AnswersOk(init, n);
      RequestsAreOk(init);
      RequestsAreOk(run);
      AskedGrow(After(init), last, n);
      if n < |After(run).asked| { AnswerStep(After(init), init, last, n); }
      assert run == init + [last];
    }
  }

  lemma AskedGrow(w: World, s: Step, n: nat)
    requires Can(w, s) && RequestsOk(w)
    ensures |w.asked| <= |Next(w, s).asked|
    ensures n >= |w.asked| ==> s != Reply(n) && s != Cancel(n)
  {
    hide Capture, Finished, Admitted, Placed, Owned;
  }

  /** The request that runs the handler is answered exactly once its entry is
      finished, any other exactly once it took the result or was cancelled; and
      only a cancelled one is answered without the handler's reply. */
  lemma AnsweredIff(run: seq<Step>, n: nat)
    requires Legal(run) && n < |After(run).asked|
    ensures var w := After(run);
            && w.asked[n] < |w.owners|
            && (n in w.answers <==>
                  if w.owners[w.asked[n]] == n then exists i :: FinishedAt(run, w.asked[n], i)
                  else Reply(n) in run || Cancel(n) in run)
            && (n in w.answers ==> (w.answers[n].Cancelled? <==> Cancel(n) in run))
  {
    hide WindowOk, SpacedOut, Legal, After;
    Reachable(run);
    var w := After(run);
    assert Placed(w, n);
    AnswersOk(run, n);
    FinishesOnce(run, w.asked[n]);
  }

  /** Anything may be asked at any time; whoever waits may be cancelled, and takes
      the result as soon as there is one; a handler that runs may finish. */
  lemma StepsArePossible(run: seq<Step>, key: string, calls: seq<Call>, n: nat)
    requires Legal(run)
    ensures Legal(run + [Ask(key)])
    ensures var w := After(run);
            && (n in w.waiting ==>
                  && Legal(run + [Cancel(n)]) && n < |w.asked|
                  && (Legal(run + [Reply(n)]) <==> exists i :: FinishedAt(run, w.asked[n], i)))
            && (n < |w.admitted| && (forall i :: !FinishedAt(run, n, i)) ==> Legal(run + [Finish(n, calls)]))
  {
    hide WindowOk, SpacedOut, Legal, After, Owned;
    RequestsAreOk(run);
    var w := After(run);
    Extend(run, Ask(key));
    Extend(run, Cancel(n));
    Extend(run, Reply(n));
    Extend(run, Finish(n, calls));
    if n in w.waiting {
      assert Placed(w, n);
      FinishesOnce(run, w.asked[n]);
    }
    FinishesOnce(run, n);
  }

  lemma Extend(run: seq<Step>, s: Step)
    requires Legal(run)
    ensures Legal(run + [s]) == Can(After(run), s)
  {
    hide Can, Next;
    assert (run + [s])[..|run|] == run;
  }
}
