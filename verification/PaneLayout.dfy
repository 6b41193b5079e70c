/** The dashboard's split-pane tree and the list of open split panes. */
module PaneLayout {
  import opened Common
  import opened Preview

  datatype Direction = Vertical | Horizontal
  datatype Layout =
    | Leaf(id: string)
    | Split(id: string, direction: Direction, size: real, first: Layout, second: Layout)

  const PRIMARY := "primary"

  function GroupId(pane: string): string { "group-" + pane }

  function SplitLeaf(l: Layout, target: string, pane: string, direction: Direction): Layout {
    match l
    case Leaf(id) => if id == target then Split(GroupId(pane), direction, 50.0, l, Leaf(pane)) else l
    case Split(id, dir, size, first, second) =>
      Split(id, dir, size, SplitLeaf(first, target, pane, direction), SplitLeaf(second, target, pane, direction))
  }

  function RemoveLeaf(l: Layout, pane: string): Layout {
    match l
    case Leaf(_) => l
    case Split(id, dir, size, first, second) =>
      if first == Leaf(pane) then second
      else if second == Leaf(pane) then first
      else Split(id, dir, size, RemoveLeaf(first, pane), RemoveLeaf(second, pane))
  }

  function UpdateSplitSize(l: Layout, split: string, size: real): Layout {
    match l
    case Leaf(_) => l
    case Split(id, dir, old_, first, second) =>
      if id == split then Split(id, dir, size, first, second)
      else Split(id, dir, old_, UpdateSplitSize(first, split, size), UpdateSplitSize(second, split, size))
  }

  // ------------------------------------------------------------- views of it

  /** How many leaves carry an id. */
  function LeafCount(l: Layout, id: string): nat {
    match l
    case Leaf(x) => if x == id then 1 else 0
    case Split(_, _, _, first, second) => LeafCount(first, id) + LeafCount(second, id)
  }

  /** How many dividers carry an id. */
  function SplitCount(l: Layout, id: string): nat {
    match l
    case Leaf(_) => 0
    case Split(x, _, _, first, second) => (if x == id then 1 else 0) + SplitCount(first, id) + SplitCount(second, id)
  }

  predicate SizesOk(l: Layout) {
    l.Split? ==> 20.0 <= l.size <= 80.0 && SizesOk(l.first) && SizesOk(l.second)
  }

  // ------------------------------------------------------- one step at a time

  /** Removing a fresh pane undoes the split that made it, whatever else the
      tree holds. */
  lemma {:induction false} RemoveUndoesSplit(l: Layout, target: string, pane: string, direction: Direction)
    requires LeafCount(l, pane) == 0
    ensures RemoveLeaf(SplitLeaf(l, target, pane, direction), pane) == l
  {
    if l.Split? {
      RemoveUndoesSplit(l.first, target, pane, direction);
      RemoveUndoesSplit(l.second, target, pane, direction);
    }
  }

  /** A split adds one new leaf and one new divider for every leaf it is aimed
      at, and nothing else. */
  lemma {:induction false} SplitAdds(l: Layout, target: string, pane: string, direction: Direction, id: string)
    ensures var z := SplitLeaf(l, target, pane, direction);
            && LeafCount(z, id) == LeafCount(l, id) + (if id == pane then LeafCount(l, target) else 0)
            && SplitCount(z, id) == SplitCount(l, id) + (if id == GroupId(pane) then LeafCount(l, target) else 0)
            && (SizesOk(l) ==> SizesOk(z))
  {
    if l.Split? {
      SplitAdds(l.first, target, pane, direction, id);
      SplitAdds(l.second, target, pane, direction, id);
    }
  }

  lemma {:induction false} RemoveAbsent(l: Layout, pane: string)
    requires LeafCount(l, pane) == 0
    ensures RemoveLeaf(l, pane) == l
  {
    if l.Split? {
      RemoveAbsent(l.first, pane);
      RemoveAbsent(l.second, pane);
    }
  }

  /** Removing a leaf that occurs once, below a split, takes out that leaf and
      no other, and adds no divider. */
  lemma {:induction false} RemoveTakesOne(l: Layout, pane: string, id: string)
    requires l.Split? && LeafCount(l, pane) == 1
    ensures var z := RemoveLeaf(l, pane);
            && LeafCount(z, id) == LeafCount(l, id) - (if id == pane then 1 else 0)
            && SplitCount(z, id) <= SplitCount(l, id)
            && (SizesOk(l) ==> SizesOk(z))
  {
    if l.first != Leaf(pane) && l.second != Leaf(pane) {
      if LeafCount(l.first, pane) == 1 {
        if l.first.Split? { RemoveTakesOne(l.first, pane, id); }
        RemoveAbsent(l.second, pane);
      } else {
        RemoveAbsent(l.first, pane);
        if l.second.Split? { RemoveTakesOne(l.second, pane, id); }
      }
    }
  }

  lemma {:induction false} ResizeKeeps(l: Layout, split: string, size: real, id: string)
    ensures var z := UpdateSplitSize(l, split, size);
            && LeafCount(z, id) == LeafCount(l, id) && SplitCount(z, id) == SplitCount(l, id)
            && (SizesOk(l) && 20.0 <= size <= 80.0 ==> SizesOk(z))
  {
    if l.Split? {
      ResizeKeeps(l.first, split, size, id);
      ResizeKeeps(l.second, split, size, id);
    }
  }

  // --------------------------------------------------- what the user sees

  /** The panes from left to right and top to bottom. */
  function Leaves(l: Layout): seq<string> {
    match l case Leaf(id) => [id] case Split(_, _, _, first, second) => Leaves(first) + Leaves(second)
  }

  datatype Divider = Divider(id: string, direction: Direction, size: real)

  function Dividers(l: Layout): multiset<Divider> {
    match l
    case Leaf(_) => multiset{}
    case Split(id, dir, size, first, second) => multiset{Divider(id, dir, size)} + Dividers(first) + Dividers(second)
  }

  /** The list with a new id right behind every occurrence of another. */
  function Behind(ids: seq<string>, target: string, pane: string): seq<string> {
    if ids == [] then []
    else [ids[0]] + (if ids[0] == target then [pane] else []) + Behind(ids[1..], target, pane)
  }

  lemma {:induction false} BehindAppend(a: seq<string>, b: seq<string>, target: string, pane: string)
    ensures Behind(a + b, target, pane) == Behind(a, target, pane) + Behind(b, target, pane)
    decreases |a|
  {
    if a == [] {
      assert a + b == b;
    } else {
      assert (a + b)[1..] == a[1..] + b;
      BehindAppend(a[1..], b, target, pane);
    }
  }

  lemma OneMore(top: multiset<Divider>, a: multiset<Divider>, b: multiset<Divider>, d: Divider)
    ensures top + (a + multiset{d}) + b == top + a + b + multiset{d}
    ensures top + a + (b + multiset{d}) == top + a + b + multiset{d}
  {
  }

  /** A split puts the new pane right behind the one it is aimed at, with a
      divider in the middle, in the direction asked for. */
  lemma {:induction false} SplitShows(l: Layout, target: string, pane: string, direction: Direction)
    ensures var z := SplitLeaf(l, target, pane, direction);
            && Leaves(z) == Behind(Leaves(l), target, pane)
            && (LeafCount(l, target) == 1 ==>
                  Dividers(z) == Dividers(l) + multiset{Divider(GroupId(pane), direction, 50.0)})
            && (LeafCount(l, target) == 0 ==> z == l)
  {
    hide GroupId;
    if l.Split? {
      hide Behind;
      SplitShows(l.first, target, pane, direction);
      SplitShows(l.second, target, pane, direction);
      BehindAppend(Leaves(l.first), Leaves(l.second), target, pane);
      OneMore(multiset{Divider(l.id, l.direction, l.size)}, Dividers(l.first), Dividers(l.second),
              Divider(GroupId(pane), direction, 50.0));
    } else {
      assert [l.id][1..] == [] && Behind([], target, pane) == [];
    }
  }

  lemma {:induction false} LeafIsShown(l: Layout, pane: string)
    ensures pane in Leaves(l) <==> LeafCount(l, pane) > 0
  {
    if l.Split? {
      LeafIsShown(l.first, pane);
      LeafIsShown(l.second, pane);
    }
  }

  lemma OutOfFirst(top: multiset<Divider>, a: multiset<Divider>, b: multiset<Divider>, less: multiset<Divider>,
                   d: Divider)
    requires a == less + multiset{d}
    ensures top + a + b == (top + less + b) + multiset{d}
    ensures top + b + a == (top + b + less) + multiset{d}
  {
  }

  lemma OneOf(l: Layout, pane: string)
    requires l.Split? && LeafCount(l, pane) == 1
    ensures l.first == Leaf(pane) ==> LeafCount(l.second, pane) == 0
    ensures l.second == Leaf(pane) ==> LeafCount(l.first, pane) == 0
    ensures (LeafCount(l.first, pane) == 1 && LeafCount(l.second, pane) == 0)
            || (LeafCount(l.first, pane) == 0 && LeafCount(l.second, pane) == 1)
    ensures LeafCount(l.first, pane) == 1 && l.first != Leaf(pane) ==> l.first.Split?
    ensures LeafCount(l.second, pane) == 1 && l.second != Leaf(pane) ==> l.second.Split?
    ensures Leaves(l) == Leaves(l.first) + Leaves(l.second)
    ensures Dividers(l) == multiset{Divider(l.id, l.direction, l.size)} + Dividers(l.first) + Dividers(l.second)
  {
  }

  /** Removing a pane takes it out of the row and one divider with it; the others
      stay in order, their dividers as they were. */
  lemma {:induction false} RemoveShows(l: Layout, pane: string) returns (d: Divider)
    requires l.Split? && LeafCount(l, pane) == 1
    ensures Leaves(RemoveLeaf(l, pane)) == Without(Leaves(l), pane)
    ensures Dividers(l) == Dividers(RemoveLeaf(l, pane)) + multiset{d}
  {
    d := Divider(l.id, l.direction, l.size);
    var top := multiset{d};
    OneOf(l, pane);
    WithoutAppend(Leaves(l.first), Leaves(l.second), pane);
    LeafIsShown(l.first, pane);
    LeafIsShown(l.second, pane);
    if l.first == Leaf(pane) {
      WithoutAbsent(Leaves(l.second), pane);
    } else if l.second == Leaf(pane) {
      WithoutAbsent(Leaves(l.first), pane);
    } else if LeafCount(l.first, pane) == 1 {
      hide LeafCount, Without;
      d := RemoveShows(l.first, pane);
      RemoveAbsent(l.second, pane);
      WithoutAbsent(Leaves(l.second), pane);
      OutOfFirst(top, Dividers(l.first), Dividers(l.second), Dividers(RemoveLeaf(l.first, pane)), d);
    } else {
      hide LeafCount, Without;
      d := RemoveShows(l.second, pane);
      RemoveAbsent(l.first, pane);
      WithoutAbsent(Leaves(l.first), pane);
      OutOfFirst(top, Dividers(l.second), Dividers(l.first), Dividers(RemoveLeaf(l.second, pane)), d);
    }
  }

  lemma {:induction false} ResizeAbsent(l: Layout, split: string, size: real)
    requires SplitCount(l, split) == 0
    ensures UpdateSplitSize(l, split, size) == l
  {
    if l.Split? {
      ResizeAbsent(l.first, split, size);
      ResizeAbsent(l.second, split, size);
    }
  }

  /** One divider in place of another, in either half. */
  lemma InsteadOf(top: multiset<Divider>, a: multiset<Divider>, b: multiset<Divider>, now: multiset<Divider>,
                  d: Divider, e: Divider)
    requires d in a && now == a - multiset{d} + multiset{e}
    ensures top + now + b == (top + a + b) - multiset{d} + multiset{e}
    ensures top + b + now == (top + b + a) - multiset{d} + multiset{e}
  {
  }

  lemma TopMoves(a: multiset<Divider>, b: multiset<Divider>, d: Divider, e: Divider)
    ensures multiset{e} + a + b == (multiset{d} + a + b) - multiset{d} + multiset{e}
  {
  }

  /** Resizing moves the divider of that id to that size, and nothing else. */
  lemma {:induction false} ResizeShows(l: Layout, split: string, size: real) returns (d: Divider)
    requires SplitCount(l, split) == 1
    ensures d.id == split && d in Dividers(l)
    ensures var z := UpdateSplitSize(l, split, size);
            && Leaves(z) == Leaves(l)
            && Dividers(z) == Dividers(l) - multiset{d} + multiset{d.(size := size)}
  {
    d := Divider(l.id, l.direction, l.size);
    var top, a, b := multiset{d}, Dividers(l.first), Dividers(l.second);
    if l.id == split {
      TopMoves(a, b, d, d.(size := size));
    } else if SplitCount(l.first, split) == 1 {
      d := ResizeShows(l.first, split, size);
      ResizeAbsent(l.second, split, size);
      InsteadOf(top, a, b, Dividers(UpdateSplitSize(l.first, split, size)), d, d.(size := size));
    } else {
      ResizeAbsent(l.first, split, size);
      d := ResizeShows(l.second, split, size);
      InsteadOf(top, b, a, Dividers(UpdateSplitSize(l.second, split, size)), d, d.(size := size));
    }
  }

  // ------------------------------------------------------------ the dashboard

  /** `panes` are the open split panes, `next` the counter their ids come from. */
  datatype Dashboard = Dashboard(layout: Layout, panes: seq<string>, next: nat)

  const EMPTY := Dashboard(Leaf(PRIMARY), [], 1)

  function PaneId(k: nat): string { "pane-" + Decimal(k) }

  function Clamp(x: real): real {
    var low := if x < 20.0 then 20.0 else x;
    if low > 80.0 then 80.0 else low
  }

  /** `Collapse` is the return to a single pane when one session is left. */
  datatype Action =
    | OpenSplit(target: string, direction: Direction)
    | CloseSplit(pane: string)
    | Resize(split: string, percent: real)
    | Collapse

  function Perform(d: Dashboard, a: Action): Dashboard {
    match a
    case OpenSplit(target, direction) =>
      var pane := PaneId(d.next);
      Dashboard(SplitLeaf(d.layout, target, pane, direction), d.panes + [pane], d.next + 1)
    case CloseSplit(pane) => d.(panes := Without(d.panes, pane), layout := RemoveLeaf(d.layout, pane))
    case Resize(split, percent) => d.(layout := UpdateSplitSize(d.layout, split, Clamp(percent)))
    case Collapse => d.(panes := [], layout := Leaf(PRIMARY))
  }

  function PerformAll(actions: seq<Action>): Dashboard {
    if actions == [] then EMPTY else Perform(PerformAll(actions[..|actions| - 1]), actions[|actions| - 1])
  }

  // -------------------------------------------------------------- invariants

  function PaneCount(panes: seq<string>, id: string): nat { multiset(panes)[id] }

  /** The leaves are the primary pane and the open split panes. */
  ghost predicate InStep(d: Dashboard) {
    forall id: string :: LeafCount(d.layout, id) == (if id == PRIMARY then 1 else 0) + PaneCount(d.panes, id)
  }

  ghost predicate Numbered(id: string, next: nat) { exists k: nat :: k < next && id == PaneId(k) }

  ghost predicate GroupNumbered(id: string, next: nat) { exists k: nat :: k < next && id == GroupId(PaneId(k)) }

  ghost predicate PanesUnique(panes: seq<string>, next: nat) {
    forall id: string :: PaneCount(panes, id) > 0 ==> PaneCount(panes, id) == 1 && Numbered(id, next)
  }

  ghost predicate SplitsUnique(l: Layout, next: nat) {
    forall id: string :: SplitCount(l, id) > 0 ==> SplitCount(l, id) == 1 && GroupNumbered(id, next)
  }

  /** All ids come from the counter, none is in use twice, and every divider
      stands between 20 and 80. */
  ghost predicate Unique(d: Dashboard) {
    PanesUnique(d.panes, d.next) && SplitsUnique(d.layout, d.next) && SizesOk(d.layout)
  }

  ghost predicate Good(d: Dashboard) { InStep(d) && Unique(d) }

  lemma PaneIdsDiffer(j: nat, k: nat)
    ensures PaneId(j) == PaneId(k) ==> j == k
    ensures GroupId(PaneId(j)) == GroupId(PaneId(k)) ==> j == k
    ensures PaneId(j) != PRIMARY
  {
    assert PaneId(j)[5..] == Decimal(j) && PaneId(k)[5..] == Decimal(k);
    assert GroupId(PaneId(j))[6..] == PaneId(j) && GroupId(PaneId(k))[6..] == PaneId(k);
    assert PaneId(j)[1] == 'a' && PRIMARY[1] == 'r';
    if Decimal(j) == Decimal(k) { DecimalInjective(j, k); }
  }

  /** An id already numbered is neither the next one nor the primary one. */
  lemma NumberedIsOld(id: string, next: nat)
    ensures Numbered(id, next) ==> id != PaneId(next) && id != PRIMARY && Numbered(id, next + 1)
    ensures GroupNumbered(id, next) ==> id != GroupId(PaneId(next)) && GroupNumbered(id, next + 1)
    ensures Numbered(PaneId(next), next + 1) && GroupNumbered(GroupId(PaneId(next)), next + 1)
  {
    hide PaneId, GroupId;
    if Numbered(id, next) {
      var k: nat :| k < next && id == PaneId(k);
      PaneIdsDiffer(k, next);
    }
    if GroupNumbered(id, next) {
      var k: nat :| k < next && id == GroupId(PaneId(k));
      PaneIdsDiffer(k, next);
    }
  }

  lemma {:induction false} WithoutCounts(panes: seq<string>, pane: string, id: string)
    ensures PaneCount(Without(panes, pane), id) == if id == pane then 0 else PaneCount(panes, id)
  {
    if panes != [] {
      assert panes == panes[..|panes| - 1] + [panes[|panes| - 1]];
      WithoutCounts(panes[..|panes| - 1], pane, id);
    }
  }

  lemma LeafOnce(d: Dashboard, id: string)
    requires Good(d)
    ensures LeafCount(d.layout, id) <= 1
  {
    hide LeafCount, PaneCount, Numbered, SplitsUnique, SizesOk;
    NumberedIsOld(id, d.next);
  }

  /** Opening a split keeps leaves and panes in step exactly when it is aimed at
      a leaf; the ids stay unique either way. */
  lemma OpenIff(d: Dashboard, target: string, direction: Direction)
    requires Good(d)
    ensures Unique(Perform(d, OpenSplit(target, direction)))
    ensures InStep(Perform(d, OpenSplit(target, direction))) <==> LeafCount(d.layout, target) > 0
  {
    hide PaneId, GroupId, LeafCount, SplitCount, SizesOk, Numbered, GroupNumbered, PaneCount, SplitLeaf;
    var pane, z := PaneId(d.next), Perform(d, OpenSplit(target, direction));
    LeafOnce(d, target);
    NumberedIsOld(pane, d.next);
    NumberedIsOld(GroupId(pane), d.next);
    PaneIdsDiffer(d.next, d.next);
    forall id: string
      ensures PaneCount(z.panes, id) == PaneCount(d.panes, id) + (if id == pane then 1 else 0)
      ensures LeafCount(z.layout, id)
              == LeafCount(d.layout, id) + (if id == pane then LeafCount(d.layout, target) else 0)
      ensures SplitCount(z.layout, id)
              == SplitCount(d.layout, id) + (if id == GroupId(pane) then LeafCount(d.layout, target) else 0)
      ensures SizesOk(z.layout)
      ensures Numbered(id, d.next) ==> Numbered(id, z.next)
      ensures GroupNumbered(id, d.next) ==> GroupNumbered(id, z.next)
    {
      PaneAdded(d.panes, pane, id);
      SplitAdds(d.layout, target, pane, direction, id);
      NumberedIsOld(id, d.next);
    }
    assert LeafCount(z.layout, pane) == LeafCount(d.layout, target);
  }

  lemma PaneAdded(panes: seq<string>, pane: string, id: string)
    ensures PaneCount(panes + [pane], id) == PaneCount(panes, id) + (if id == pane then 1 else 0)
  {
  }

  /** Closing keeps them in step exactly when it is not the primary pane that is
      closed while others are open. */
  lemma CloseIff(d: Dashboard, pane: string)
    requires Good(d)
    ensures Unique(Perform(d, CloseSplit(pane)))
    ensures InStep(Perform(d, CloseSplit(pane))) <==> pane != PRIMARY || d.panes == []
  {
    hide LeafCount, SplitCount, SizesOk, Numbered, GroupNumbered, PaneCount, RemoveLeaf, Without;
    var z := Perform(d, CloseSplit(pane));
    LeafOnce(d, pane);
    NumberedIsOld(PRIMARY, d.next);
    NoneOpen(d);
    forall id: string ensures PaneCount(z.panes, id) == if id == pane then 0 else PaneCount(d.panes, id) {
      WithoutCounts(d.panes, pane, id);
    }
    if LeafCount(d.layout, pane) == 0 {
      RemoveAbsent(d.layout, pane);
    } else if d.layout.Split? {
      forall id: string
        ensures LeafCount(z.layout, id) == LeafCount(d.layout, id) - (if id == pane then 1 else 0)
        ensures SplitCount(z.layout, id) <= SplitCount(d.layout, id) && SizesOk(z.layout)
      {
        RemoveTakesOne(d.layout, pane, id);
      }
    } else {
      assert RemoveLeaf(d.layout, pane) == d.layout by { RemoveFromLeaf(d.layout, pane); }
    }
  }

  lemma RemoveFromLeaf(l: Layout, pane: string)
    requires l.Leaf?
    ensures RemoveLeaf(l, pane) == l
  {
  }

  lemma {:induction false} SomeLeaf(l: Layout) returns (id: string)
    ensures LeafCount(l, id) > 0
  {
    if l.Leaf? { id := l.id; } else { id := SomeLeaf(l.first); }
  }

  /** The tree is a single leaf exactly when no split pane is open, and that leaf
      is the primary pane. */
  lemma NoneOpen(d: Dashboard)
    requires Good(d)
    ensures d.layout.Leaf? <==> d.panes == []
    ensures d.panes == [] ==> d.layout == Leaf(PRIMARY) && forall id :: PaneCount(d.panes, id) == 0
    ensures LeafCount(d.layout, PRIMARY) == 1 && PaneCount(d.panes, PRIMARY) == 0
  {
    hide SplitsUnique, SizesOk, Numbered;
    NumberedIsOld(PRIMARY, d.next);
    assert LeafCount(d.layout, PRIMARY) == 1;
    if d.panes != [] { assert PaneCount(d.panes, d.panes[0]) > 0; }
    if d.layout.Split? {
      var a := SomeLeaf(d.layout.first);
      var b := SomeLeaf(d.layout.second);
      LeafOnce(d, a);
      var other := if a == PRIMARY then b else a;
      assert LeafCount(d.layout, other) > 0 && other != PRIMARY;
      assert PaneCount(d.panes, other) > 0;
    }
  }

  lemma SingleIsGood(next: nat)
    ensures Good(Dashboard(Leaf(PRIMARY), [], next))
  {
  }

  lemma OthersKeep(d: Dashboard, a: Action)
    requires Good(d) && (a.Resize? || a.Collapse?)
    ensures Good(Perform(d, a))
  {
    hide Numbered, GroupNumbered;
    SingleIsGood(d.next);
    if a.Resize? {
      hide LeafCount, SplitCount, SizesOk, PaneCount;
      var z := Perform(d, a);
      ResizeKeeps(d.layout, a.split, Clamp(a.percent), PRIMARY);
      forall id: string
        ensures LeafCount(z.layout, id) == LeafCount(d.layout, id)
        ensures SplitCount(z.layout, id) == SplitCount(d.layout, id)
      {
        ResizeKeeps(d.layout, a.split, Clamp(a.percent), id);
      }
    }
  }

  /** Every step is aimed at a pane that is there, and no close at the primary. */
  predicate Aimed(d: Dashboard, a: Action) {
    match a
    case OpenSplit(target, _) => target == PRIMARY || target in d.panes
    case CloseSplit(pane) => pane in d.panes
    case _ => true
  }

  ghost predicate AllAimed(actions: seq<Action>) {
    actions == []
    || (AllAimed(actions[..|actions| - 1]) && Aimed(PerformAll(actions[..|actions| - 1]), actions[|actions| - 1]))
  }

  lemma PerformKeeps(d: Dashboard, a: Action)
    requires Good(d) && Aimed(d, a)
    ensures Good(Perform(d, a))
  {
    hide Unique, Perform, LeafCount;
    match a
    case OpenSplit(target, direction) =>
      NoneOpen(d);
      if target != PRIMARY { assert PaneCount(d.panes, target) > 0; }
      OpenIff(d, target, direction);
    case CloseSplit(pane) =>
      NoneOpen(d);
      assert PaneCount(d.panes, pane) > 0;
      CloseIff(d, pane);
    case _ => OthersKeep(d, a);
  }

  /** Over every run of opens, closes, resizes and collapses: each leaf occurs
      once and the leaves are the primary pane and the open panes; each divider
      has its own id and a size from 20 to 80. */
  lemma {:induction false} RunsKeepLayout(actions: seq<Action>)
    requires AllAimed(actions)
    ensures Good(PerformAll(actions))
    ensures forall id: string :: LeafCount(PerformAll(actions).layout, id) <= 1
  {
    hide Good, Aimed, Perform, LeafCount;
    if actions == [] {
      SingleIsGood(1);
    } else {
      RunsKeepLayout(actions[..|actions| - 1]);
      PerformKeeps(PerformAll(actions[..|actions| - 1]), actions[|actions| - 1]);
    }
    forall id: string ensures LeafCount(PerformAll(actions).layout, id) <= 1 { LeafOnce(PerformAll(actions), id); }
  }

  function Opened(actions: seq<Action>): nat {
    if actions == [] then 0
    else Opened(actions[..|actions| - 1]) + if actions[|actions| - 1].OpenSplit? then 1 else 0
  }

  /** The panes opened and not closed since, in the order of opening; each open
      takes the next number. */
  function StillOpen(actions: seq<Action>): seq<string> {
    if actions == [] then []
    else
      var before := StillOpen(actions[..|actions| - 1]);
      match actions[|actions| - 1]
      case OpenSplit(_, _) => before + [PaneId(1 + Opened(actions[..|actions| - 1]))]
      case CloseSplit(pane) => Without(before, pane)
      case Resize(_, _) => before
      case Collapse => []
  }

  /** The dashboard lists exactly those, and after a collapse shows the primary
      pane alone. */
  lemma {:induction false} PanesAreOpen(actions: seq<Action>)
    ensures var d := PerformAll(actions);
            && d.panes == StillOpen(actions) && d.next == 1 + Opened(actions)
            && (actions != [] && actions[|actions| - 1].Collapse? ==> d.layout == Leaf(PRIMARY))
  {
    if actions != [] {
      hide PaneId, SplitLeaf, RemoveLeaf, UpdateSplitSize;
      PanesAreOpen(actions[..|actions| - 1]);
    }
  }

  /** A drag ends at the wanted percentage, or at the nearer end of 20 to 80. */
  lemma DragShows(d: Dashboard, split: string, percent: real) returns (was: Divider)
    requires SplitCount(d.layout, split) == 1
    ensures was.id == split && was in Dividers(d.layout)
    ensures var z := Perform(d, Resize(split, percent));
            var now := was.(size := if percent < 20.0 then 20.0 else if percent > 80.0 then 80.0 else percent);
            && z.panes == d.panes && z.next == d.next && Leaves(z.layout) == Leaves(d.layout)
            && Dividers(z.layout) == Dividers(d.layout) - multiset{was} + multiset{now}
  {
    was := ResizeShows(d.layout, split, Clamp(percent));
    hide Dividers, Leaves, UpdateSplitSize;
  }
}
