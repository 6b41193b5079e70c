/** The session-store bridge: mutations are de-duplicated by operation id,
    concurrent requests share one result, and finished results leave a bounded
    window in the order they entered it. */
module Bridge {
  import opened Common
  import opened Protocol

  const WINDOW := 4096
  const MAX_OPERATION_ID := 128

  datatype Response = Response(status: int, header: map<string, seq<string>>, body: string)

  // ------------------------------------------------------------ operation ids

  predicate ValidId(id: string) { 0 < |id| <= MAX_OPERATION_ID }

  function KeyOf(verb: string, path: string, id: string): string { verb + " " + path + " " + id }

  /** A request as the bridge sees it, its operation id trimmed. */
  datatype Request = Request(verb: string, path: string, id: string)

  predicate Sensible(r: Request) {
    && ' ' !in r.verb
    && ValidId(r.id) && !Blank(r.id[0]) && !Blank(r.id[|r.id| - 1])
  }

  function Key(r: Request): string { KeyOf(r.verb, r.path, r.id) }

  /** Another request with a shorter id and the same key. */
  ghost predicate HasTwin(r: Request) {
    exists t: Request :: Sensible(t) && Key(t) == Key(r) && |t.id| < |r.id|
  }

  /** A space followed by something that is not blank. */
  ghost predicate SpaceInside(id: string) {
    exists k :: 0 < k < |id| && id[k - 1] == ' ' && !Blank(id[k])
  }

  /** Cutting an id at a space inside it and moving its front to the path. */
  lemma TwinAt(r: Request, k: nat) returns (t: Request)
    requires Sensible(r) && 0 < k < |r.id| && r.id[k - 1] == ' ' && !Blank(r.id[k])
    ensures Sensible(t) && Key(t) == Key(r) && |t.id| < |r.id|
  {
    var front := r.id[..k - 1];
    t := Request(r.verb, r.path + " " + front, r.id[k..]);
    assert r.id == front + " " + t.id;
    assert r.verb + " " + (r.path + " " + front) + " " + t.id == r.verb + " " + r.path + " " + (front + " " + t.id);
  }

  lemma KeyEnds(r: Request, i: nat)
    requires i <= |r.id|
    ensures |Key(r)| == |r.verb| + |r.path| + |r.id| + 2
    ensures i < |r.id| ==> Key(r)[|Key(r)| - |r.id| + i] == r.id[i]
    ensures Key(r)[|Key(r)| - |r.id| - 1] == ' '
  {
  }

  lemma TwinHasSpace(r: Request, t: Request)
    requires Sensible(r) && Sensible(t) && Key(t) == Key(r) && |t.id| < |r.id|
    ensures SpaceInside(r.id)
  {
    var k := |r.id| - |t.id|;
    KeyEnds(r, k - 1);
    KeyEnds(r, k);
    KeyEnds(t, 0);
    hide Key;
    assert r.id[k - 1] == ' ' && r.id[k] == t.id[0];
  }

  /** A request can be taken for one with a shorter id exactly when a space
      divides its own, because the path may contain spaces too. */
  lemma TwinIff(r: Request)
    requires Sensible(r)
    ensures HasTwin(r) <==> SpaceInside(r.id)
  {
    if SpaceInside(r.id) {
      var k :| 0 < k < |r.id| && r.id[k - 1] == ' ' && !Blank(r.id[k]);
      var t := TwinAt(r, k);
    }
    hide Sensible, Key, SpaceInside;
    forall t: Request | Sensible(t) && Key(t) == Key(r) && |t.id| < |r.id| ensures SpaceInside(r.id) {
      TwinHasSpace(r, t);
    }
  }

  /** So ids without spaces separate all requests. */
  lemma KeysSeparate(r: Request, t: Request)
    requires Sensible(r) && Sensible(t) && ' ' !in r.id && ' ' !in t.id && Key(r) == Key(t)
    ensures r == t
  {
    NoShorterTwin(r, t);
    NoShorterTwin(t, r);
    assert Key(r)[|Key(r)| - |r.id|..] == r.id && Key(t)[|Key(t)| - |t.id|..] == t.id;
    var a, b := r.verb + " " + r.path, t.verb + " " + t.path;
    assert Key(r)[..|a|] == a && Key(t)[..|b|] == b;
    FirstSpace(r.verb, r.path);
    FirstSpace(t.verb, t.path);
    assert |r.verb| == |t.verb|;
    assert a[..|r.verb|] == r.verb && b[..|t.verb|] == t.verb;
    assert a[|r.verb| + 1..] == r.path && b[|t.verb| + 1..] == t.path;
  }

  lemma NoShorterTwin(r: Request, t: Request)
    requires Sensible(r) && Sensible(t) && ' ' !in r.id && Key(r) == Key(t)
    ensures |t.id| >= |r.id|
  {
    TwinIff(r);
    assert SpaceInside(r.id) ==> ' ' in r.id;
  }

  lemma FirstSpace(verb: string, path: string)
    requires ' ' !in verb
    ensures var s := verb + " " + path;
            s[|verb|] == ' ' && forall i :: 0 <= i < |verb| ==> s[i] != ' '
  {
    assert forall i :: 0 <= i < |verb| ==> verb[i] in verb;
  }

  // --------------------------------------------------------- captured replies

  /** What a handler does to its response writer. */
  datatype Call = SetHeader(name: string, values: seq<string>) | WriteHeader(status: int) | Write(bytes: string)

  /** The first status wins; a body without one, or no call at all, is 200. */
  function Capture(calls: seq<Call>): Response {
    var raw := Captured(calls);
    if raw.status == 0 then raw.(status := 200) else raw
  }

  function Captured(calls: seq<Call>): Response {
    if calls == [] then Response(0, map[], "") else
      var r := Captured(calls[..|calls| - 1]);
      match calls[|calls| - 1]
      case SetHeader(name, values) => r.(header := r.header[name := values])
      case WriteHeader(status) => if r.status == 0 then r.(status := status) else r
      case Write(bytes) => r.(status := if r.status == 0 then 200 else r.status, body := r.body + bytes)
  }

  lemma {:induction false} FirstStatusWins(calls: seq<Call>, more: seq<Call>)
    ensures Captured(calls).status != 0 ==> Captured(calls + more).status == Captured(calls).status
    ensures Capture(calls).status != 0
  {
    if more == [] {
      assert calls + more == calls;
    } else {
      assert (calls + more)[..|calls + more| - 1] == calls + more[..|more| - 1];
      FirstStatusWins(calls, more[..|more| - 1]);
    }
  }

  /** The bytes of all writes, joined in order. */
  function BodyOf(calls: seq<Call>): string {
    if calls == [] then "" else (if calls[0].Write? then calls[0].bytes else "") + BodyOf(calls[1..])
  }

  predicate Names(call: Call, name: string) { call.SetHeader? && call.name == name }

  /** The last call that sets a header. */
  ghost predicate LastNamed(calls: seq<Call>, name: string, k: int) {
    0 <= k < |calls| && Names(calls[k], name) && forall j :: k < j < |calls| ==> !Names(calls[j], name)
  }

  /** Which status a call asks for, 0 for none. */
  function Asked(call: Call): int {
    match call case SetHeader(_, _) => 0 case WriteHeader(status) => status case Write(_) => 200
  }

  /** The first call that asks for a status. */
  ghost predicate FirstAsked(calls: seq<Call>, k: int) {
    0 <= k < |calls| && Asked(calls[k]) != 0 && forall j :: 0 <= j < k ==> Asked(calls[j]) == 0
  }

  ghost predicate NameSays(header: map<string, seq<string>>, calls: seq<Call>, name: string) {
    if name in header then exists k :: LastNamed(calls, name, k) && calls[k].values == header[name]
    else forall k :: 0 <= k < |calls| ==> !Names(calls[k], name)
  }

  ghost predicate HeaderSays(header: map<string, seq<string>>, calls: seq<Call>) {
    forall name :: NameSays(header, calls, name)
  }

  ghost predicate StatusSays(status: int, calls: seq<Call>, none: int) {
    if forall k :: 0 <= k < |calls| ==> Asked(calls[k]) == 0 then status == none
    else exists k :: FirstAsked(calls, k) && status == Asked(calls[k])
  }

  /** The reply that a handler's calls describe: all bytes written, the last
      values of each header, the first status, or 200. */
  ghost predicate Describes(calls: seq<Call>, r: Response) {
    r.body == BodyOf(calls) && HeaderSays(r.header, calls) && StatusSays(r.status, calls, 200)
  }

  lemma Regroup(a: string, b: string, c: string)
    ensures a + (b + c) == (a + b) + c
  {
  }

  lemma {:induction false} BodySnoc(calls: seq<Call>, call: Call)
    ensures BodyOf(calls + [call]) == BodyOf(calls) + if call.Write? then call.bytes else ""
  {
    if calls == [] {
      assert (calls + [call])[1..] == [];
    } else {
      assert (calls + [call])[1..] == calls[1..] + [call] && (calls + [call])[0] == calls[0];
      BodySnoc(calls[1..], call);
      Regroup(if calls[0].Write? then calls[0].bytes else "", BodyOf(calls[1..]),
              if call.Write? then call.bytes else "");
    }
  }

  lemma NameSnoc(header: map<string, seq<string>>, calls: seq<Call>, call: Call, name: string)
    requires NameSays(header, calls, name)
    ensures NameSays(if call.SetHeader? then header[call.name := call.values] else header, calls + [call], name)
  {
    var all, n := calls + [call], |calls|;
    assert all[n] == call && forall k :: 0 <= k < n ==> all[k] == calls[k];
    if Names(call, name) {
      assert LastNamed(all, name, n);
    } else if name in header {
      var k :| LastNamed(calls, name, k) && calls[k].values == header[name];
      assert LastNamed(all, name, k);
    }
  }

  lemma HeaderSnoc(header: map<string, seq<string>>, calls: seq<Call>, call: Call)
    requires HeaderSays(header, calls)
    ensures HeaderSays(if call.SetHeader? then header[call.name := call.values] else header, calls + [call])
  {
    hide NameSays;
    var now := if call.SetHeader? then header[call.name := call.values] else header;
    forall name ensures NameSays(now, calls + [call], name) {
      NameSnoc(header, calls, call, name);
    }
  }

  lemma StatusSnoc(status: int, calls: seq<Call>, call: Call)
    requires StatusSays(status, calls, 0)
    ensures StatusSays(if status == 0 then Asked(call) else status, calls + [call], 0)
  {
    var all := calls + [call];
    assert all[|calls|] == call;
    if k :| FirstAsked(calls, k) && status == Asked(calls[k]) {
      assert FirstAsked(all, k) && Asked(all[k]) != 0;
    } else if Asked(call) != 0 {
      assert FirstAsked(all, |calls|);
    }
  }

  lemma {:induction false} CapturedSays(calls: seq<Call>)
    ensures var r := Captured(calls);
            r.body == BodyOf(calls) && HeaderSays(r.header, calls) && StatusSays(r.status, calls, 0)
  {
    if calls != [] {
      hide HeaderSays, StatusSays, BodyOf;
      var init, last := calls[..|calls| - 1], calls[|calls| - 1];
      CapturedSays(init);
      BodySnoc(init, last);
      HeaderSnoc(Captured(init).header, init, last);
      StatusSnoc(Captured(init).status, init, last);
      assert calls == init + [last];
      assert Captured(init).body + "" == Captured(init).body;
    }
  }

  /** What is captured is exactly what the handler's calls describe. */
  lemma CaptureIsDescribed(calls: seq<Call>)
    ensures Describes(calls, Capture(calls))
  {
    CapturedSays(calls);
  }

  lemma NamedIff(calls: seq<Call>, h: map<string, seq<string>>, name: string)
    requires NameSays(h, calls, name)
    ensures name in h <==> exists k :: 0 <= k < |calls| && Names(calls[k], name)
  {
    if name in h {
      var k :| LastNamed(calls, name, k) && calls[k].values == h[name];
      assert Names(calls[k], name);
    }
  }

  lemma NamedOnce(calls: seq<Call>, h: map<string, seq<string>>, g: map<string, seq<string>>, name: string)
    requires NameSays(h, calls, name) && NameSays(g, calls, name)
    ensures name in h <==> name in g
    ensures name in h ==> h[name] == g[name]
  {
    NamedIff(calls, h, name);
    NamedIff(calls, g, name);
    if name in h {
      var k :| LastNamed(calls, name, k) && calls[k].values == h[name];
      var j :| LastNamed(calls, name, j) && calls[j].values == g[name];
      assert j == k;
    }
  }

  lemma AskedOnce(calls: seq<Call>, a: int, b: int)
    requires StatusSays(a, calls, 200) && StatusSays(b, calls, 200)
    ensures a == b
  {
    if j, k :| FirstAsked(calls, j) && a == Asked(calls[j]) && FirstAsked(calls, k) && b == Asked(calls[k]) {
      assert j == k;
    }
  }

  /** And nothing else is. */
  lemma DescribedOnce(calls: seq<Call>, r: Response)
    ensures Describes(calls, r) <==> r == Capture(calls)
  {
    hide NameSays, StatusSays, Captured;
    CaptureIsDescribed(calls);
    var t := Capture(calls);
    if Describes(calls, r) {
      forall name
        ensures name in r.header <==> name in t.header
        ensures name in r.header ==> r.header[name] == t.header[name]
      {
        NamedOnce(calls, r.header, t.header, name);
      }
      assert r.header == t.header;
      AskedOnce(calls, r.status, t.status);
    }
  }

  // ---------------------------------------------------------------- the table

  /** What the bridge's lock protects: a result per retained key, not yet there
      while the handler runs, and the keys in order of admission. */
  datatype Table = Table(results: map<string, Option<Response>>, ids: seq<string>)

  function Admitted(t: Table, key: string): Table {
    Table(t.results[key := None], t.ids + [key])
  }

  /** Drop finished operations from the head while the list is too long. */
  function Pruned(t: Table): Table
    decreases |t.ids|
  {
    if |t.ids| > WINDOW && t.ids[0] in t.results && t.results[t.ids[0]].Some?
    then Pruned(Table(t.results - {t.ids[0]}, t.ids[1..]))
    else t
  }

  function Finished(t: Table, key: string, r: Response): Table { Pruned(t.(results := t.results[key := Some(r)])) }

  class OperationResult {
    var outcome: Option<Response>

    constructor ()
      ensures outcome == None
    {
      outcome := None;
    }
  }

  /** The list holds the map's keys, each once. */
  ghost predicate Listed(operations: map<string, OperationResult>, ids: seq<string>) {
    && (forall k :: k in ids <==> k in operations)
    && (forall i, j :: 0 <= i < j < |ids| ==> ids[i] != ids[j])
  }

  ghost predicate Unshared(operations: map<string, OperationResult>) {
    forall j, k :: j in operations && k in operations && operations[j] == operations[k] ==> j == k
  }

  lemma HeadGoes(operations: map<string, OperationResult>, ids: seq<string>)
    requires Listed(operations, ids) && Unshared(operations) && ids != []
    ensures Listed(operations - {ids[0]}, ids[1..]) && Unshared(operations - {ids[0]}) && ids[0] in operations
  {
    assert ids == [ids[0]] + ids[1..];
  }

  lemma TailComes(operations: map<string, OperationResult>, ids: seq<string>, key: string, o: OperationResult)
    requires Listed(operations, ids) && Unshared(operations) && key !in operations
    requires forall k :: k in operations ==> operations[k] != o
    ensures Listed(operations[key := o], ids + [key]) && Unshared(operations[key := o])
  {
  }

  datatype Decision = BadRequest | Wait(result: OperationResult) | Execute(result: OperationResult, key: string)

  class StoreBridge {
    var operations: map<string, OperationResult>
    var operationIds: seq<string>

    ghost predicate Valid()
      reads this
    {
      Listed(operations, operationIds) && Unshared(operations)
    }

    ghost function View(): Table
      reads this, operations.Values
    {
      Table(map k | k in operations :: operations[k].outcome, operationIds)
    }

    constructor ()
      ensures Valid() && View() == Table(map[], [])
    {
      operations, operationIds := map[], [];
    }

    /** The first lock section of a mutation. */
    method Enter(verb: string, path: string, header: string) returns (d: Decision)
      requires Valid()
      modifies this
      ensures Valid()
      ensures d.BadRequest? <==> |TrimSpace(header)| == 0 || |TrimSpace(header)| > 128
      ensures d.Execute? ==> fresh(d.result) && d.key == KeyOf(verb, path, TrimSpace(header))
                             && d.key !in old(View()).results && View() == Admitted(old(View()), d.key)
                             && operations[d.key] == d.result
      ensures d.Wait? ==> var key := KeyOf(verb, path, TrimSpace(header));
                          key in operations && d.result == operations[key]
      ensures !d.Execute? ==> View() == old(View())
    {
      hide Listed, Unshared, TrimSpace, KeyOf;
      var id := TrimSpace(header);
      if id == "" || |id| > MAX_OPERATION_ID { return BadRequest; }
      var key := KeyOf(verb, path, id);
      if key in operations { return Wait(operations[key]); }
      var result := new OperationResult();
      TailComes(operations, operationIds, key, result);
      operations := operations[key := result];
      operationIds := operationIds + [key];
      return Execute(result, key);
    }

    /** The second lock section: the result is published, then old ones go. */
    method Complete(key: string, result: OperationResult, r: Response)
      requires Valid() && key in operations && operations[key] == result
      modifies this, result
      ensures Valid() && View() == Finished(old(View()), key, r)
      ensures result.outcome == Some(r)
    {
      result.outcome := Some(r);
      assert View() == old(View()).(results := old(View()).results[key := Some(r)]);
      Prune();
    }

    method Prune()
      requires Valid()
      modifies this
      ensures Valid() && View() == Pruned(old(View()))
    {
      hide Listed, Unshared;
      while |operationIds| > WINDOW
        invariant Valid() && Pruned(View()) == Pruned(old(View()))
        decreases |operationIds|
      {
        var key := operationIds[0];
        HeadGoes(operations, operationIds);
        if operations[key].outcome.None? { return; }
        ghost var t := View();
        operations := operations - {key};
        operationIds := operationIds[1..];
        assert View() == Table(t.results - {key}, t.ids[1..]);
      }
    }
  }
}
