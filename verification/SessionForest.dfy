/** The sidebar's session forest, built from parent links, and its grouping by
    day. Collation of dates and day labels are parameters. */
module SessionForest {
  import opened Common

  datatype Session = Session(id: string, parent: string, starred: bool, createdAt: string)
  datatype Tree = Tree(session: Session, children: seq<Tree>)

  /** The place of a date in the collation order, later dates higher. */
  type Collation = string -> int

  // ------------------------------------------------------------------- nodes

  /** An insertion-ordered map from session ids. */
  datatype Nodes = Nodes(order: seq<string>, byId: map<string, Session>)

  ghost predicate Valid(n: Nodes) {
    && (forall i, j :: 0 <= i < j < |n.order| ==> n.order[i] != n.order[j])
    && (forall id :: id in n.order <==> id in n.byId)
    && (forall id :: id in n.byId ==> n.byId[id].id == id)
  }

  /** A repeated id keeps its first place and takes the last value. */
  function Add(n: Nodes, s: Session): Nodes {
    Nodes(if s.id in n.byId then n.order else n.order + [s.id], n.byId[s.id := s])
  }

  function Collect(sessions: seq<Session>): (n: Nodes)
    ensures Valid(n)
    ensures forall id :: id in n.byId <==> Lists(sessions, id)
  {
    if sessions == [] then Nodes([], map[])
    else
      var init, last := sessions[..|sessions| - 1], sessions[|sessions| - 1];
      assert sessions == init + [last];
      Add(Collect(init), last)
  }

  predicate Lists(sessions: seq<Session>, id: string) { exists i :: 0 <= i < |sessions| && sessions[i].id == id }

  ghost function FirstAt(sessions: seq<Session>, id: string): (k: nat)
    requires Lists(sessions, id)
    ensures k < |sessions| && sessions[k].id == id && forall j :: 0 <= j < k ==> sessions[j].id != id
  {
    var init := sessions[..|sessions| - 1];
    if Lists(init, id) then FirstAt(init, id) else |sessions| - 1
  }

  ghost function LastAt(sessions: seq<Session>, id: string): (k: nat)
    requires Lists(sessions, id)
    ensures k < |sessions| && sessions[k].id == id && forall j :: k < j < |sessions| ==> sessions[j].id != id
  {
    if sessions[|sessions| - 1].id == id then |sessions| - 1 else LastAt(sessions[..|sessions| - 1], id)
  }

  lemma CollectOne(sessions: seq<Session>)
    requires sessions != []
    ensures Collect(sessions) == Add(Collect(sessions[..|sessions| - 1]), sessions[|sessions| - 1])
  {
  }

  lemma KeepsPlace(sessions: seq<Session>, id: string)
    requires sessions != [] && Lists(sessions[..|sessions| - 1], id)
    ensures Lists(sessions, id) && FirstAt(sessions, id) == FirstAt(sessions[..|sessions| - 1], id)
  {
    var init := sessions[..|sessions| - 1];
    var i :| 0 <= i < |init| && init[i].id == id;
    assert sessions[i].id == id;
  }

  lemma {:induction false} LastValue(sessions: seq<Session>, id: string)
    requires Lists(sessions, id)
    ensures id in Collect(sessions).byId && Collect(sessions).byId[id] == sessions[LastAt(sessions, id)]
  {
    hide Collect;
    CollectOne(sessions);
    var init := sessions[..|sessions| - 1];
    if sessions[|sessions| - 1].id != id {
      var i :| 0 <= i < |sessions| && sessions[i].id == id;
      assert init[i].id == id;
      LastValue(init, id);
    }
  }

  lemma {:induction false} FirstPlace(sessions: seq<Session>, i: nat, j: nat)
    requires i < j < |Collect(sessions).order|
    ensures var order := Collect(sessions).order;
            && Lists(sessions, order[i]) && Lists(sessions, order[j])
            && FirstAt(sessions, order[i]) < FirstAt(sessions, order[j])
  {
    var init, last := sessions[..|sessions| - 1], sessions[|sessions| - 1];
    var before, order := Collect(init).order, Collect(sessions).order;
    CollectOne(sessions);
    assert before[i] == order[i] && order[i] in before;
    hide Collect;
    KeepsPlace(sessions, order[i]);
    if j < |before| {
      FirstPlace(init, i, j);
      KeepsPlace(sessions, order[j]);
    } else {
      assert sessions[|sessions| - 1].id == order[j];
      assert !Lists(init, order[j]);
    }
  }

  /** The nodes are exactly the listed ids, in the order they are first seen,
      each with its last summary. */
  lemma CollectIsExact(sessions: seq<Session>)
    ensures var n := Collect(sessions);
            && (forall id :: id in n.byId <==> Lists(sessions, id))
            && (forall id :: id in n.byId ==> n.byId[id] == sessions[LastAt(sessions, id)])
            && (forall i, j :: 0 <= i < j < |n.order| ==>
                  && Lists(sessions, n.order[i]) && Lists(sessions, n.order[j])
                  && FirstAt(sessions, n.order[i]) < FirstAt(sessions, n.order[j]))
  {
    hide Collect, Lists;
    var n := Collect(sessions);
    forall id | id in n.byId ensures n.byId[id] == sessions[LastAt(sessions, id)] { LastValue(sessions, id); }
    forall i, j | 0 <= i < j < |n.order|
      ensures Lists(sessions, n.order[i]) && Lists(sessions, n.order[j])
      ensures FirstAt(sessions, n.order[i]) < FirstAt(sessions, n.order[j])
    {
      FirstPlace(sessions, i, j);
    }
  }

  /** Shown at top level: starred, or without a parent in the list other than
      itself. */
  predicate IsRoot(n: Nodes, id: string)
    requires id in n.byId
  {
    var s := n.byId[id];
    s.starred || s.parent == "" || s.parent !in n.byId || s.parent == id
  }

  function Parent(n: Nodes, id: string): (p: string)
    requires id in n.byId && !IsRoot(n, id)
    ensures p in n.byId
  {
    n.byId[id].parent
  }

  predicate IsChild(n: Nodes, id: string, parent: string)
    requires id in n.byId
  {
    !IsRoot(n, id) && n.byId[id].parent == parent
  }

  /** The roots among the first `k` nodes, in list order. */
  function Roots(n: Nodes, k: nat): (r: seq<string>)
    requires Valid(n) && k <= |n.order|
    ensures forall id :: id in r <==> id in n.order[..k] && IsRoot(n, id)
    ensures forall i, j :: 0 <= i < j < |r| ==> r[i] != r[j]
  {
    if k == 0 then [] else
      assert n.order[..k] == n.order[..k - 1] + [n.order[k - 1]];
      Roots(n, k - 1) + if IsRoot(n, n.order[k - 1]) then [n.order[k - 1]] else []
  }

  function Children(n: Nodes, parent: string, k: nat): (r: seq<string>)
    requires Valid(n) && k <= |n.order|
    ensures forall id :: id in r <==> id in n.order[..k] && IsChild(n, id, parent)
    ensures forall i, j :: 0 <= i < j < |r| ==> r[i] != r[j]
  {
    if k == 0 then [] else
      assert n.order[..k] == n.order[..k - 1] + [n.order[k - 1]];
      Children(n, parent, k - 1) + if IsChild(n, n.order[k - 1], parent) then [n.order[k - 1]] else []
  }

  // -------------------------------------------------------------- the chains

  /** The chain of parents reaches a root after exactly `d` steps. */
  ghost predicate RootAfter(n: Nodes, id: string, d: nat)
    decreases d
  {
    id in n.byId && if d == 0 then IsRoot(n, id) else !IsRoot(n, id) && RootAfter(n, Parent(n, id), d - 1)
  }

  /** Nodes of one depth. */
  ghost predicate Level(n: Nodes, ids: seq<string>, d: nat) {
    forall id :: id in ids ==> id in n.byId && RootAfter(n, id, d)
  }

  ghost predicate Rooted(n: Nodes, id: string) { exists d: nat :: RootAfter(n, id, d) }

  lemma {:induction false} DepthUnique(n: Nodes, id: string, d: nat, e: nat)
    requires RootAfter(n, id, d) && RootAfter(n, id, e)
    ensures d == e
    decreases d
  {
    if d > 0 && e > 0 { DepthUnique(n, Parent(n, id), d - 1, e - 1); }
  }

  ghost function Chain(n: Nodes, id: string, d: nat): set<string>
    requires RootAfter(n, id, d)
    decreases d
  {
    {id} + if d == 0 then {} else Chain(n, Parent(n, id), d - 1)
  }

  lemma {:induction false} ChainShallow(n: Nodes, id: string, d: nat, x: string, e: nat)
    requires RootAfter(n, id, d) && x in Chain(n, id, d) && RootAfter(n, x, e)
    ensures e <= d
    decreases d
  {
    if x == id { DepthUnique(n, x, d, e); } else { ChainShallow(n, Parent(n, id), d - 1, x, e); }
  }

  lemma ChainStep(n: Nodes, id: string, d: nat)
    requires RootAfter(n, id, d)
    ensures id in n.byId
    ensures d == 0 ==> Chain(n, id, d) == {id}
    ensures d > 0 ==>
              !IsRoot(n, id) && RootAfter(n, Parent(n, id), d - 1)
              && id !in Chain(n, Parent(n, id), d - 1) && Chain(n, id, d) == {id} + Chain(n, Parent(n, id), d - 1)
  {
    if d > 0 {
      if id in Chain(n, Parent(n, id), d - 1) { ChainShallow(n, Parent(n, id), d - 1, id, d); }
    }
  }

  lemma {:induction false} ChainGrows(n: Nodes, id: string, d: nat)
    requires RootAfter(n, id, d)
    ensures |Chain(n, id, d)| == d + 1 && Chain(n, id, d) <= n.byId.Keys
    decreases d
  {
    hide Chain, RootAfter, IsRoot;
    ChainStep(n, id, d);
    if d > 0 { ChainGrows(n, Parent(n, id), d - 1); }
  }

  lemma DepthBounded(n: Nodes, id: string, d: nat)
    requires Valid(n) && RootAfter(n, id, d)
    ensures d < |n.order|
  {
    ChainGrows(n, id, d);
    SubsetCount(Chain(n, id, d), n.byId.Keys);
    KeysCount(n.order, n.byId.Keys);
  }

  lemma {:induction false} KeysCount(order: seq<string>, keys: set<string>)
    requires forall k :: k in keys ==> k in order
    ensures |keys| <= |order|
    decreases |order|
  {
    if order == [] {
      assert keys == {};
    } else {
      var last := order[|order| - 1];
      assert order == order[..|order| - 1] + [last];
      KeysCount(order[..|order| - 1], keys - {last});
      SubsetCount(keys, (keys - {last}) + {last});
    }
  }

  // ----------------------------------------------------------------- sorting

  /** Starred first, then newest first. */
  predicate Before(rank: Collation, a: Session, b: Session) {
    (a.starred && !b.starred) || (a.starred == b.starred && rank(a.createdAt) >= rank(b.createdAt))
  }

  ghost predicate SortedBy(rank: Collation, n: Nodes, ids: seq<string>) {
    forall i, j :: 0 <= i < j < |ids| ==>
      ids[i] in n.byId && ids[j] in n.byId && Before(rank, n.byId[ids[i]], n.byId[ids[j]])
  }

  /** Stable insertion: after everything that may stand before it. */
  function Insert(rank: Collation, n: Nodes, ids: seq<string>, id: string): (r: seq<string>)
    requires id in n.byId && forall x :: x in ids ==> x in n.byId
    ensures multiset(r) == multiset(ids) + multiset{id}
    ensures forall x :: x in r <==> x in ids || x == id
  {
    if ids == [] then [id]
    else
      var init, last := ids[..|ids| - 1], ids[|ids| - 1];
      assert ids == init + [last];
      if Before(rank, n.byId[last], n.byId[id]) then ids + [id] else Insert(rank, n, init, id) + [last]
  }

  function Sort(rank: Collation, n: Nodes, ids: seq<string>): (r: seq<string>)
    requires forall x :: x in ids ==> x in n.byId
    ensures multiset(r) == multiset(ids)
    ensures forall x :: x in r <==> x in ids
  {
    if ids == [] then []
    else
      var init, last := ids[..|ids| - 1], ids[|ids| - 1];
      assert ids == init + [last];
      Insert(rank, n, Sort(rank, n, init), last)
  }

  lemma {:induction false} InsertSorts(rank: Collation, n: Nodes, ids: seq<string>, id: string)
    requires id in n.byId && (forall x :: x in ids ==> x in n.byId) && SortedBy(rank, n, ids)
    ensures SortedBy(rank, n, Insert(rank, n, ids, id))
  {
    if ids != [] {
      var init, last := ids[..|ids| - 1], ids[|ids| - 1];
      if Before(rank, n.byId[last], n.byId[id]) {
        assert forall i :: 0 <= i < |ids| ==> ids[i] == last || Before(rank, n.byId[ids[i]], n.byId[last]);
      } else {
        InsertSorts(rank, n, init, id);
        LastStaysLast(rank, n, ids, id);
      }
    }
  }

  lemma BeforeTotal(rank: Collation, a: Session, b: Session)
    ensures Before(rank, a, b) || Before(rank, b, a)
  {
  }

  lemma BeforeLast(rank: Collation, n: Nodes, ids: seq<string>, id: string)
    requires SortedBy(rank, n, ids) && ids != [] && id in ids[..|ids| - 1]
    requires forall x :: x in ids ==> x in n.byId
    ensures id in n.byId && ids[|ids| - 1] in n.byId && Before(rank, n.byId[id], n.byId[ids[|ids| - 1]])
  {
    hide Before;
    var k := |ids| - 1;
    var j :| 0 <= j < k && ids[..k][j] == id;
    assert ids[j] == id && ids[j] in n.byId && ids[k] in n.byId;
    assert Before(rank, n.byId[ids[j]], n.byId[ids[k]]);
  }

  lemma SortedSnoc(rank: Collation, n: Nodes, ids: seq<string>, id: string)
    requires SortedBy(rank, n, ids) && id in n.byId
    requires forall x :: x in ids ==> x in n.byId && Before(rank, n.byId[x], n.byId[id])
    ensures SortedBy(rank, n, ids + [id])
  {
    hide Before;
  }

  lemma LastStaysLast(rank: Collation, n: Nodes, ids: seq<string>, id: string)
    requires id in n.byId && (forall x :: x in ids ==> x in n.byId) && SortedBy(rank, n, ids) && ids != []
    requires !Before(rank, n.byId[ids[|ids| - 1]], n.byId[id])
    requires SortedBy(rank, n, Insert(rank, n, ids[..|ids| - 1], id))
    ensures SortedBy(rank, n, Insert(rank, n, ids[..|ids| - 1], id) + [ids[|ids| - 1]])
  {
    hide Insert, Before, SortedBy;
    var init, last := ids[..|ids| - 1], ids[|ids| - 1];
    var r := Insert(rank, n, init, id);
    BeforeTotal(rank, n.byId[last], n.byId[id]);
    forall x | x in r ensures x in n.byId && Before(rank, n.byId[x], n.byId[last]) {
      if x != id { BeforeLast(rank, n, ids, x); }
    }
    SortedSnoc(rank, n, r, last);
  }

  lemma {:induction false} SortSorts(rank: Collation, n: Nodes, ids: seq<string>)
    requires forall x :: x in ids ==> x in n.byId
    ensures SortedBy(rank, n, Sort(rank, n, ids))
  {
    if ids != [] {
      SortSorts(rank, n, ids[..|ids| - 1]);
      InsertSorts(rank, n, Sort(rank, n, ids[..|ids| - 1]), ids[|ids| - 1]);
    }
  }

  /** Neither stands before the other. */
  predicate Tied(rank: Collation, a: Session, b: Session) {
    a.starred == b.starred && rank(a.createdAt) == rank(b.createdAt)
  }

  /** The listed sessions tied with a given one, in list order. */
  function TiedWith(rank: Collation, n: Nodes, ids: seq<string>, s: Session): seq<string>
    requires forall x :: x in ids ==> x in n.byId
  {
    if ids == [] then []
    else
      var init, last := ids[..|ids| - 1], ids[|ids| - 1];
      assert ids == init + [last];
      TiedWith(rank, n, init, s) + if Tied(rank, n.byId[last], s) then [last] else []
  }

  lemma TiedSnoc(rank: Collation, n: Nodes, ids: seq<string>, id: string, s: Session)
    requires id in n.byId && forall x :: x in ids ==> x in n.byId
    ensures TiedWith(rank, n, ids + [id], s)
            == TiedWith(rank, n, ids, s) + if Tied(rank, n.byId[id], s) then [id] else []
  {
    assert (ids + [id])[..|ids|] == ids;
  }

  lemma {:induction false} InsertIsStable(rank: Collation, n: Nodes, ids: seq<string>, id: string, s: Session)
    requires id in n.byId && forall x :: x in ids ==> x in n.byId
    ensures TiedWith(rank, n, Insert(rank, n, ids, id), s)
            == TiedWith(rank, n, ids, s) + if Tied(rank, n.byId[id], s) then [id] else []
  {
    if ids == [] {
      TiedSnoc(rank, n, [], id, s);
      assert [] + [id] == [id];
    } else {
      hide TiedWith, Insert;
      var init, last := ids[..|ids| - 1], ids[|ids| - 1];
      assert ids == init + [last] && last in ids;
      InsertOne(rank, n, ids, id);
      TiedSnoc(rank, n, ids, id, s);
      TiedSnoc(rank, n, init, last, s);
      if !Before(rank, n.byId[last], n.byId[id]) {
        InsertIsStable(rank, n, init, id, s);
        TiedSnoc(rank, n, Insert(rank, n, init, id), last, s);
        var before := TiedWith(rank, n, init, s);
        assert before + [] == before;
      }
    }
  }

  lemma InsertOne(rank: Collation, n: Nodes, ids: seq<string>, id: string)
    requires ids != [] && id in n.byId && forall x :: x in ids ==> x in n.byId
    ensures var init, last := ids[..|ids| - 1], ids[|ids| - 1];
            Insert(rank, n, ids, id) ==
            if Before(rank, n.byId[last], n.byId[id]) then ids + [id] else Insert(rank, n, init, id) + [last]
  {
  }

  /** Sorting keeps sessions that are tied in the order they had. */
  lemma {:induction false} SortIsStable(rank: Collation, n: Nodes, ids: seq<string>, s: Session)
    requires forall x :: x in ids ==> x in n.byId
    ensures TiedWith(rank, n, Sort(rank, n, ids), s) == TiedWith(rank, n, ids, s)
  {
    if ids != [] {
      var init, last := ids[..|ids| - 1], ids[|ids| - 1];
      SortIsStable(rank, n, init, s);
      InsertIsStable(rank, n, Sort(rank, n, init), last, s);
    }
  }

  lemma {:induction false} DistinctByCount(a: seq<string>, b: seq<string>)
    requires multiset(a) == multiset(b)
    requires forall i, j :: 0 <= i < j < |a| ==> a[i] != a[j]
    ensures forall i, j :: 0 <= i < j < |b| ==> b[i] != b[j]
  {
    forall i, j | 0 <= i < j < |b| ensures b[i] != b[j] {
      if b[i] == b[j] {
        assert b == b[..i] + [b[i]] + b[i + 1..j] + [b[j]] + b[j + 1..];
        assert multiset(b)[b[i]] >= 2;
        OnceEach(a, b[i]);
      }
    }
  }

  lemma {:induction false} OnceEach(a: seq<string>, x: string)
    requires forall i, j :: 0 <= i < j < |a| ==> a[i] != a[j]
    ensures multiset(a)[x] <= 1
  {
    if a != [] {
      assert a == a[..|a| - 1] + [a[|a| - 1]];
      OnceEach(a[..|a| - 1], x);
      if x == a[|a| - 1] { assert x !in a[..|a| - 1]; }
    }
  }

  // -------------------------------------------------------------- the forest

  function SortedChildren(rank: Collation, n: Nodes, id: string): seq<string>
    requires Valid(n)
  {
    Sort(rank, n, Children(n, id, |n.order|))
  }

  lemma ChildrenBelow(rank: Collation, n: Nodes, id: string, d: nat)
    requires Valid(n) && RootAfter(n, id, d)
    ensures var c := SortedChildren(rank, n, id);
            && (forall x :: x in c <==> x in n.byId && IsChild(n, x, id))
            && Level(n, c, d + 1)
            && (forall i, j :: 0 <= i < j < |c| ==> c[i] != c[j])
  {
    assert n.order[..|n.order|] == n.order;
    DistinctByCount(Children(n, id, |n.order|), SortedChildren(rank, n, id));
  }

  lemma LevelBelow(rank: Collation, n: Nodes, ids: seq<string>, d: nat)
    requires Valid(n) && Level(n, ids, d) && ids != []
    ensures Level(n, SortedChildren(rank, n, ids[0]), d + 1) && Level(n, ids[1..], d)
    ensures d < |n.order| && ids[0] in n.byId
  {
    hide RootAfter, Valid;
    ChildrenBelow(rank, n, ids[0], d);
    DepthBounded(n, ids[0], d);
  }

  /** The trees over the given nodes of depth `d`, their children sorted. */
  function Trees(rank: Collation, n: Nodes, ids: seq<string>, ghost d: nat): seq<Tree>
    requires Valid(n) && Level(n, ids, d)
    decreases |n.order| - d, |ids|
  {
    if ids == [] then []
    else
      hide RootAfter, Valid, SortedChildren, Level;
      LevelBelow(rank, n, ids, d);
      [Tree(n.byId[ids[0]], Trees(rank, n, SortedChildren(rank, n, ids[0]), d + 1))] + Trees(rank, n, ids[1..], d)
  }

  function SortedRoots(rank: Collation, n: Nodes): (r: seq<string>)
    requires Valid(n)
    ensures Level(n, r, 0)
  {
    Sort(rank, n, Roots(n, |n.order|))
  }

  function Forest(rank: Collation, sessions: seq<Session>): seq<Tree> {
    var n := Collect(sessions);
    Trees(rank, n, SortedRoots(rank, n), 0)
  }

  // ---------------------------------------------------------- the three loops

  method CollectNodes(sessions: seq<Session>) returns (n: Nodes)
    ensures n == Collect(sessions)
  {
    n := Nodes([], map[]);
    var i := 0;
    while i < |sessions|
      invariant i <= |sessions| && n == Collect(sessions[..i])
    {
      assert sessions[..i + 1][..i] == sessions[..i];
      n := Add(n, sessions[i]);
      i := i + 1;
    }
    assert sessions[..i] == sessions;
  }

  /** After `k` nodes every node has the children seen so far. */
  ghost predicate Linked(n: Nodes, children: map<string, seq<string>>, k: nat)
    requires Valid(n) && k <= |n.order|
  {
    children.Keys == n.byId.Keys && forall id :: id in n.byId ==> children[id] == Children(n, id, k)
  }

  lemma NothingLinked(n: Nodes, children: map<string, seq<string>>)
    requires Valid(n) && children.Keys == n.byId.Keys && forall id :: id in children ==> children[id] == []
    ensures Linked(n, children, 0) && Roots(n, 0) == []
  {
  }

  lemma NodeKnown(n: Nodes, i: nat)
    requires Valid(n) && i < |n.order|
    ensures n.order[i] in n.byId
  {
  }

  lemma RootStep(n: Nodes, i: nat, children: map<string, seq<string>>)
    requires Valid(n) && i < |n.order| && Linked(n, children, i) && IsRoot(n, n.order[i])
    ensures Roots(n, i + 1) == Roots(n, i) + [n.order[i]] && Linked(n, children, i + 1)
  {
    forall id | id in n.byId ensures children[id] == Children(n, id, i + 1) {
      assert Children(n, id, i) + [] == Children(n, id, i);
    }
  }

  lemma ChildStep(n: Nodes, i: nat, children: map<string, seq<string>>)
    requires Valid(n) && i < |n.order| && Linked(n, children, i) && !IsRoot(n, n.order[i])
    ensures var p := Parent(n, n.order[i]);
            p in children && Linked(n, children[p := children[p] + [n.order[i]]], i + 1)
    ensures Roots(n, i + 1) == Roots(n, i)
  {
    forall id | id in n.byId ensures Children(n, id, i) + [] == Children(n, id, i) { }
  }

  /** Every node goes to its parent's children or to the roots. */
  method LinkNodes(n: Nodes) returns (roots: seq<string>, children: map<string, seq<string>>)
    requires Valid(n)
    ensures roots == Roots(n, |n.order|) && Linked(n, children, |n.order|)
  {
    hide Roots, Children, Linked, Valid, IsRoot;
    roots := [];
    children := map id | id in n.byId :: [];
    NothingLinked(n, children);
    var i := 0;
    while i < |n.order|
      invariant i <= |n.order| && roots == Roots(n, i) && Linked(n, children, i)
    {
      var id := n.order[i];
      NodeKnown(n, i);
      if IsRoot(n, id) {
        RootStep(n, i, children);
        roots := roots + [id];
      } else {
        ChildStep(n, i, children);
        var parent := n.byId[id].parent;
        children := children[parent := children[parent] + [id]];
      }
      i := i + 1;
    }
  }

  lemma LinkedAt(n: Nodes, children: map<string, seq<string>>, id: string)
    requires Valid(n) && Linked(n, children, |n.order|) && id in n.byId
    ensures id in children && children[id] == Children(n, id, |n.order|)
  {
  }

  /** Sort the siblings, then each sibling's children. */
  method SortSiblings(rank: Collation, n: Nodes, children: map<string, seq<string>>, ids: seq<string>, ghost d: nat)
    returns (trees: seq<Tree>)
    requires Valid(n) && Linked(n, children, |n.order|)
    requires Level(n, ids, d)
    ensures trees == Trees(rank, n, Sort(rank, n, ids), d)
    decreases |n.order| - d
  {
    hide Sort, Valid, Children, RootAfter, Linked;
    var sorted := Sort(rank, n, ids);
    trees := [];
    var i := |sorted|;
    while i > 0
      invariant 0 <= i <= |sorted|
      invariant Level(n, sorted[i..], d)
      invariant trees == Trees(rank, n, sorted[i..], d)
    {
      i := i - 1;
      assert sorted[i] in sorted && sorted[i..][1..] == sorted[i + 1..];
      DepthBounded(n, sorted[i], d);
      ChildrenBelow(rank, n, sorted[i], d);
      LinkedAt(n, children, sorted[i]);
      var below := SortSiblings(rank, n, children, children[sorted[i]], d + 1);
      trees := [Tree(n.byId[sorted[i]], below)] + trees;
    }
    assert sorted[0..] == sorted;
  }

  method BuildForest(rank: Collation, sessions: seq<Session>) returns (forest: seq<Tree>)
    ensures forest == Forest(rank, sessions)
  {
    var n := CollectNodes(sessions);
    var roots, children := LinkNodes(n);
    forest := SortSiblings(rank, n, children, roots, 0);
  }

  // ------------------------------------------------------------ main results

  /** How often a session occurs in a forest. */
  ghost function Count(forest: seq<Tree>, id: string): nat
    decreases forest
  {
    if forest == [] then 0
    else (if forest[0].session.id == id then 1 else 0) + Count(forest[0].children, id) + Count(forest[1..], id)
  }

  /** The ancestor `k` steps up. */
  ghost function Up(n: Nodes, id: string, d: nat, k: nat): (a: string)
    requires RootAfter(n, id, d) && k <= d
    ensures RootAfter(n, a, d - k)
    decreases k
  {
    if k == 0 then id else Up(n, Parent(n, id), d - 1, k - 1)
  }

  lemma {:induction false} UpOne(n: Nodes, id: string, d: nat, k: nat)
    requires RootAfter(n, id, d) && k < d
    ensures Up(n, id, d, k) in n.byId && !IsRoot(n, Up(n, id, d, k))
    ensures Up(n, id, d, k + 1) == Parent(n, Up(n, id, d, k))
    decreases k
  {
    if k > 0 { UpOne(n, Parent(n, id), d - 1, k - 1); }
  }

  /** The trees over distinct nodes of one depth hold a rooted session once if
      its ancestor of that depth is among them, and otherwise not at all. */
  lemma {:induction false} CountRooted(rank: Collation, n: Nodes, ids: seq<string>, d: nat, x: string, e: nat)
    requires Valid(n) && Level(n, ids, d) && RootAfter(n, x, e)
    requires forall i, j :: 0 <= i < j < |ids| ==> ids[i] != ids[j]
    ensures Count(Trees(rank, n, ids, d), x) == if e >= d && Up(n, x, e, e - d) in ids then 1 else 0
    decreases |n.order| - d, |ids|
  {
    hide Trees, Count, SortedChildren, Valid, RootAfter, IsChild;
    TreesStep(rank, n, ids, d);
    if ids == [] {
      CountNone(x);
    } else {
      var h := ids[0];
      CountCons(Tree(n.byId[h], Trees(rank, n, SortedChildren(rank, n, h), d + 1)), Trees(rank, n, ids[1..], d), x);
      CountRooted(rank, n, SortedChildren(rank, n, h), d + 1, x, e);
      CountRooted(rank, n, ids[1..], d, x, e);
      UpThrough(rank, n, h, d, x, e);
      assert ids == [h] + ids[1..];
    }
  }

  /** One unfolding of the trees over a level. */
  lemma TreesStep(rank: Collation, n: Nodes, ids: seq<string>, d: nat)
    requires Valid(n) && Level(n, ids, d)
    ensures ids == [] ==> Trees(rank, n, ids, d) == []
    ensures ids != [] ==>
              var c := SortedChildren(rank, n, ids[0]);
              && Level(n, c, d + 1) && Level(n, ids[1..], d) && d < |n.order| && ids[0] in n.byId
              && n.byId[ids[0]].id == ids[0]
              && (forall i, j :: 0 <= i < j < |c| ==> c[i] != c[j])
              && Trees(rank, n, ids, d)
                 == [Tree(n.byId[ids[0]], Trees(rank, n, c, d + 1))] + Trees(rank, n, ids[1..], d)
  {
    hide SortedChildren, RootAfter;
    if ids != [] {
      LevelBelow(rank, n, ids, d);
      ChildrenBelow(rank, n, ids[0], d);
    }
  }

  lemma CountNone(x: string)
    ensures Count([], x) == 0
  {
  }

  lemma CountCons(t: Tree, rest: seq<Tree>, x: string)
    ensures Count([t] + rest, x) == (if t.session.id == x then 1 else 0) + Count(t.children, x) + Count(rest, x)
  {
    assert ([t] + rest)[1..] == rest;
  }

  /** A session lies under a node exactly if it is that node or lies under one
      of its children, and never both. */
  lemma UpThrough(rank: Collation, n: Nodes, h: string, d: nat, x: string, e: nat)
    requires Valid(n) && RootAfter(n, h, d) && RootAfter(n, x, e)
    ensures h == x ==> d == e
    ensures e == d ==> Up(n, x, e, 0) == x
    ensures e > d ==> (Up(n, x, e, e - d) == h <==> Up(n, x, e, e - d - 1) in SortedChildren(rank, n, h))
  {
    hide SortedChildren, Valid, RootAfter, Level;
    ChildrenBelow(rank, n, h, d);
    if h == x { DepthUnique(n, x, d, e); }
    if e > d {
      UpOne(n, x, e, e - d - 1);
      ParentIsChild(n, Up(n, x, e, e - d - 1), h);
    }
  }

  lemma ParentIsChild(n: Nodes, id: string, h: string)
    requires id in n.byId && !IsRoot(n, id)
    ensures Parent(n, id) == h <==> IsChild(n, id, h)
  {
  }

  lemma {:induction false} CountOthers(rank: Collation, n: Nodes, ids: seq<string>, d: nat, x: string)
    requires Valid(n) && Level(n, ids, d) && !Rooted(n, x)
    ensures Count(Trees(rank, n, ids, d), x) == 0
    decreases |n.order| - d, |ids|
  {
    hide Trees, Count, SortedChildren, Valid, RootAfter;
    TreesStep(rank, n, ids, d);
    if ids == [] {
      CountNone(x);
    } else {
      var c := SortedChildren(rank, n, ids[0]);
      CountCons(Tree(n.byId[ids[0]], Trees(rank, n, c, d + 1)), Trees(rank, n, ids[1..], d), x);
      CountOthers(rank, n, c, d + 1, x);
      CountOthers(rank, n, ids[1..], d, x);
    }
  }

  /** For any list of sessions: a session appears exactly once if its chain of
      parents reaches a root, and never if the chain only cycles. */
  lemma ForestIsExact(rank: Collation, sessions: seq<Session>, id: string)
    ensures Count(Forest(rank, sessions), id) == if Rooted(Collect(sessions), id) then 1 else 0
  {
    var n := Collect(sessions);
    var roots := SortedRoots(rank, n);
    if Rooted(n, id) {
      var e: nat :| RootAfter(n, id, e);
      DistinctByCount(Roots(n, |n.order|), roots);
      CountRooted(rank, n, roots, 0, id, e);
      assert n.order[..|n.order|] == n.order;
    } else {
      CountOthers(rank, n, roots, 0, id);
    }
  }

  /** Every child names its parent and is not starred. */
  ghost predicate HasParent(t: Tree) {
    forall i :: 0 <= i < |t.children| ==>
      t.children[i].session.parent == t.session.id && !t.children[i].session.starred
  }

  /** No starred session after one that is not, no newer one after an older one
      that is starred alike. */
  predicate MayPrecede(rank: Collation, a: Session, b: Session) {
    (b.starred ==> a.starred) && (a.starred == b.starred ==> rank(b.createdAt) <= rank(a.createdAt))
  }

  lemma BeforeMayPrecede(rank: Collation, a: Session, b: Session)
    ensures Before(rank, a, b) <==> MayPrecede(rank, a, b)
  {
  }

  /** Every list of siblings is in order, under the parent its members name. */
  ghost predicate InOrder(rank: Collation, forest: seq<Tree>)
    decreases forest
  {
    && (forall i, j :: 0 <= i < j < |forest| ==> MayPrecede(rank, forest[i].session, forest[j].session))
    && (forall i :: 0 <= i < |forest| ==> HasParent(forest[i]) && InOrder(rank, forest[i].children))
  }

  lemma {:induction false} TreesInOrder(rank: Collation, n: Nodes, ids: seq<string>, d: nat)
    requires Valid(n) && Level(n, ids, d) && SortedBy(rank, n, ids)
    ensures var t := Trees(rank, n, ids, d);
            && |t| == |ids| && InOrder(rank, t)
            && forall i :: 0 <= i < |t| ==> ids[i] in n.byId && t[i].session == n.byId[ids[i]]
    decreases |n.order| - d, |ids|
  {
    hide Trees, SortedChildren, Valid, RootAfter, InOrder, Before, MayPrecede, HasParent;
    TreesStep(rank, n, ids, d);
    if ids == [] {
      InOrderNone(rank);
    } else {
      var c := SortedChildren(rank, n, ids[0]);
      ChildrenSorted(rank, n, ids[0]);
      TreesInOrder(rank, n, c, d + 1);
      TreesInOrder(rank, n, ids[1..], d);
      ChildrenNamed(rank, n, ids[0], d, Trees(rank, n, c, d + 1));
      InOrderCons(rank, Tree(n.byId[ids[0]], Trees(rank, n, c, d + 1)), Trees(rank, n, ids[1..], d));
    }
  }

  lemma ChildrenNamed(rank: Collation, n: Nodes, id: string, d: nat, trees: seq<Tree>)
    requires Valid(n) && RootAfter(n, id, d) && id in n.byId && n.byId[id].id == id
    requires var c := SortedChildren(rank, n, id);
             |trees| == |c| && forall i :: 0 <= i < |c| ==> c[i] in n.byId && trees[i].session == n.byId[c[i]]
    ensures HasParent(Tree(n.byId[id], trees))
  {
    hide SortedChildren, RootAfter, Valid;
    ChildrenBelow(rank, n, id, d);
    var c := SortedChildren(rank, n, id);
    forall i | 0 <= i < |c| ensures IsChild(n, c[i], id) { assert c[i] in c; }
  }

  lemma ChildrenSorted(rank: Collation, n: Nodes, id: string)
    requires Valid(n)
    ensures SortedBy(rank, n, SortedChildren(rank, n, id))
  {
    SortSorts(rank, n, Children(n, id, |n.order|));
  }

  lemma InOrderNone(rank: Collation)
    ensures InOrder(rank, [])
  {
  }

  lemma InOrderCons(rank: Collation, t: Tree, rest: seq<Tree>)
    requires InOrder(rank, t.children) && InOrder(rank, rest) && HasParent(t)
    requires forall i :: 0 <= i < |rest| ==> Before(rank, t.session, rest[i].session)
    ensures InOrder(rank, [t] + rest)
  {
    hide Before, MayPrecede, HasParent;
    forall i | 0 <= i < |rest| ensures MayPrecede(rank, t.session, rest[i].session) {
      BeforeMayPrecede(rank, t.session, rest[i].session);
    }
  }

  lemma ForestInOrder(rank: Collation, sessions: seq<Session>)
    ensures InOrder(rank, Forest(rank, sessions))
  {
    var n := Collect(sessions);
    SortSorts(rank, n, Roots(n, |n.order|));
    TreesInOrder(rank, n, SortedRoots(rank, n), 0);
  }

  lemma RootsAre(rank: Collation, n: Nodes)
    requires Valid(n)
    ensures SortedBy(rank, n, SortedRoots(rank, n)) && Level(n, SortedRoots(rank, n), 0)
    ensures forall id :: id in SortedRoots(rank, n) <==> id in n.byId && IsRoot(n, id)
  {
    SortSorts(rank, n, Roots(n, |n.order|));
    assert n.order[..|n.order|] == n.order;
  }

  lemma RootSays(sessions: seq<Session>, id: string)
    ensures id in Collect(sessions).byId <==> Lists(sessions, id)
    ensures Lists(sessions, id) ==>
              var s := sessions[LastAt(sessions, id)];
              IsRoot(Collect(sessions), id) <==>
                s.starred || s.parent == "" || !Lists(sessions, s.parent) || s.parent == id
  {
    CollectIsExact(sessions);
    hide Collect, Lists;
  }

  ghost predicate AtTop(forest: seq<Tree>, id: string) {
    exists i :: 0 <= i < |forest| && forest[i].session.id == id
  }

  lemma TopIsListed(n: Nodes, roots: seq<string>, forest: seq<Tree>, id: string)
    requires |forest| == |roots|
    requires forall i :: 0 <= i < |roots| ==>
               roots[i] in n.byId && n.byId[roots[i]].id == roots[i] && forest[i].session == n.byId[roots[i]]
    ensures AtTop(forest, id) <==> id in roots
  {
    if id in roots {
      var i :| 0 <= i < |roots| && roots[i] == id;
      assert forest[i].session.id == id;
    }
  }

  /** A session stands at top level exactly if it is listed and its last summary
      is starred, names no parent, or one that is not listed, or itself. */
  lemma TopLevelIff(rank: Collation, sessions: seq<Session>, id: string)
    ensures AtTop(Forest(rank, sessions), id) <==>
            Lists(sessions, id)
            && var s := sessions[LastAt(sessions, id)];
               s.starred || s.parent == "" || !Lists(sessions, s.parent) || s.parent == id
  {
    var n := Collect(sessions);
    assert Valid(n) && forall j :: j in n.byId ==> n.byId[j].id == j;
    hide Collect, Lists, Valid, IsRoot, Level, SortedBy, AtTop, SortedRoots, InOrder, Trees;
    RootsAre(rank, n);
    RootSays(sessions, id);
    TreesInOrder(rank, n, SortedRoots(rank, n), 0);
    TopIsListed(n, SortedRoots(rank, n), Forest(rank, sessions), id);
  }

  // --------------------------------------------------------- grouping by day

  datatype Group = Group(title: string, sessions: seq<Tree>)

  /** Append to the group of that title, or start it at the end. */
  function Put(groups: seq<Group>, title: string, t: Tree): seq<Group> {
    if groups == [] then [Group(title, [t])]
    else if groups[0].title == title then [Group(title, groups[0].sessions + [t])] + groups[1..]
    else [groups[0]] + Put(groups[1..], title, t)
  }

  function GroupAll(day: string -> string, forest: seq<Tree>): seq<Group> {
    if forest == [] then []
    else
      var last := forest[|forest| - 1];
      Put(GroupAll(day, forest[..|forest| - 1]), day(last.session.createdAt), last)
  }

  method GroupByDay(rank: Collation, day: string -> string, sessions: seq<Session>) returns (groups: seq<Group>)
    ensures groups == GroupAll(day, Forest(rank, sessions))
  {
    hide GroupAll, Put, Forest;
    var forest := BuildForest(rank, sessions);
    groups := [];
    var i := 0;
    NoGroups(day, forest);
    while i < |forest|
      invariant i <= |forest| && groups == GroupAll(day, forest[..i])
    {
      OneMoreGrouped(day, forest, i);
      groups := Put(groups, day(forest[i].session.createdAt), forest[i]);
      i := i + 1;
    }
    assert forest[..i] == forest;
  }

  lemma NoGroups(day: string -> string, forest: seq<Tree>)
    ensures GroupAll(day, forest[..0]) == []
  {
  }

  lemma OneMoreGrouped(day: string -> string, forest: seq<Tree>, i: nat)
    requires i < |forest|
    ensures GroupAll(day, forest[..i + 1])
            == Put(GroupAll(day, forest[..i]), day(forest[i].session.createdAt), forest[i])
  {
    assert forest[..i + 1][..i] == forest[..i];
  }

  /** The members of a label's group, in order. */
  function Members(groups: seq<Group>, title: string): seq<Tree> {
    if groups == [] then []
    else if groups[0].title == title then groups[0].sessions
    else Members(groups[1..], title)
  }

  /** The roots of one day, in order. */
  function OfDay(day: string -> string, forest: seq<Tree>, title: string): seq<Tree> {
    if forest == [] then []
    else
      var last := forest[|forest| - 1];
      OfDay(day, forest[..|forest| - 1], title) + if day(last.session.createdAt) == title then [last] else []
  }

  function Flatten(groups: seq<Group>): seq<Tree> {
    if groups == [] then [] else groups[0].sessions + Flatten(groups[1..])
  }

  ghost predicate TitlesDiffer(groups: seq<Group>) {
    forall i, j :: 0 <= i < j < |groups| ==> groups[i].title != groups[j].title
  }

  lemma {:induction false} PutTitles(groups: seq<Group>, title: string, t: Tree)
    requires TitlesDiffer(groups)
    ensures TitlesDiffer(Put(groups, title, t))
    ensures forall g :: g in Put(groups, title, t) ==> g.title == title || exists h :: h in groups && h.title == g.title
  {
    if groups != [] {
      var p := Put(groups, title, t);
      if groups[0].title == title {
        assert p == [Group(title, groups[0].sessions + [t])] + groups[1..];
        assert groups[0] in groups;
      } else {
        PutTitles(groups[1..], title, t);
        assert p == [groups[0]] + Put(groups[1..], title, t);
        assert forall g :: g in groups[1..] ==> g.title != groups[0].title;
      }
    }
  }

  lemma {:induction false} PutMembers(groups: seq<Group>, title: string, t: Tree, other: string)
    ensures Members(Put(groups, title, t), other) == Members(groups, other) + if other == title then [t] else []
  {
    var p := Put(groups, title, t);
    assert Members(groups, other) + [] == Members(groups, other);
    if groups == [] {
      assert p[1..] == [];
    } else if groups[0].title == title {
      assert p[1..] == groups[1..];
    } else {
      assert p[1..] == Put(groups[1..], title, t);
      PutMembers(groups[1..], title, t, other);
    }
  }

  lemma {:induction false} PutFlattens(groups: seq<Group>, title: string, t: Tree)
    ensures multiset(Flatten(Put(groups, title, t))) == multiset(Flatten(groups)) + multiset{t}
  {
    var p := Put(groups, title, t);
    if groups == [] {
      assert p[1..] == [];
    } else if groups[0].title == title {
      assert p[1..] == groups[1..];
    } else {
      assert p[1..] == Put(groups[1..], title, t);
      PutFlattens(groups[1..], title, t);
    }
  }

  lemma GroupNone(title: string)
    ensures TitlesDiffer([]) && Members([], title) == [] && Flatten([]) == []
  {
  }

  /** Grouping loses and repeats no root: each label's group is exactly the
      roots of that day in forest order, and the groups together are the
      forest. */
  lemma {:induction false} GroupingIsExact(day: string -> string, forest: seq<Tree>, title: string)
    ensures var groups := GroupAll(day, forest);
            && TitlesDiffer(groups)
            && Members(groups, title) == OfDay(day, forest, title)
            && multiset(Flatten(groups)) == multiset(forest)
  {
    hide Put, TitlesDiffer, Flatten, Members;
    GroupNone(title);
    if forest != [] {
      var init, last := forest[..|forest| - 1], forest[|forest| - 1];
      GroupingIsExact(day, init, title);
      var before, today := GroupAll(day, init), day(last.session.createdAt);
      PutTitles(before, today, last);
      PutMembers(before, today, last, title);
      PutFlattens(before, today, last);
      assert forest == init + [last];
    }
  }

  function Titles(groups: seq<Group>): seq<string> {
    if groups == [] then [] else [groups[0].title] + Titles(groups[1..])
  }

  /** The labels of the roots, each once, in the order they first occur. */
  function LabelsOf(day: string -> string, forest: seq<Tree>): seq<string> {
    if forest == [] then []
    else
      var before, today := LabelsOf(day, forest[..|forest| - 1]), day(forest[|forest| - 1].session.createdAt);
      if today in before then before else before + [today]
  }

  lemma {:induction false} PutTitle(groups: seq<Group>, title: string, t: Tree)
    ensures Titles(Put(groups, title, t)) == Titles(groups) + if title in Titles(groups) then [] else [title]
  {
    var p := Put(groups, title, t);
    if groups == [] {
      assert p[1..] == [];
    } else if groups[0].title == title {
      assert p[1..] == groups[1..];
    } else {
      assert p[1..] == Put(groups[1..], title, t);
      PutTitle(groups[1..], title, t);
    }
  }

  /** The groups stand in the order in which the forest first has their day. */
  lemma {:induction false} GroupsInOrder(day: string -> string, forest: seq<Tree>)
    ensures Titles(GroupAll(day, forest)) == LabelsOf(day, forest)
  {
    if forest != [] {
      GroupsInOrder(day, forest[..|forest| - 1]);
      var init, last := forest[..|forest| - 1], forest[|forest| - 1];
      PutTitle(GroupAll(day, init), day(last.session.createdAt), last);
    }
  }
}
