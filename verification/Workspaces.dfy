/** The workspace service: a truncated most-recently-used list and the project
    folders over it. */
module Workspaces {
  import opened Common
  import opened Protocol

  const MAX_HINTS := 10
  const MAX_FOLDERS := 50
  const MAX_ID := 100
  const MAX_NAME := 80

  datatype Folder = Folder(id: string, name: string, paths: seq<string>)
  datatype Shelf = Shelf(hints: seq<string>, folders: seq<Folder>)

  function First(s: seq<string>, n: nat): seq<string> { if |s| <= n then s else s[..n] }

  function Remember(hints: seq<string>, p: string): seq<string> {
    First([p] + Without(hints, p), MAX_HINTS)
  }

  function Dropped(folders: seq<Folder>, p: string): (r: seq<Folder>)
    ensures |r| == |folders|
  {
    seq(|folders|, i requires 0 <= i < |folders| => folders[i].(paths := Without(folders[i].paths, p)))
  }

  function Removed(s: Shelf, p: string): Shelf {
    if p in s.hints then Shelf(Without(s.hints, p), Dropped(s.folders, p)) else s
  }

  // ------------------------------------------------------- updating folders

  datatype Fault = TooMany | BadId | BadName | BadPath | NotStored
  datatype Result<T> = Ok(value: T) | Err(fault: Fault)

  /** Every path known and none seen before: the paths seen afterwards. */
  function SeePaths(known: seq<string>, paths: seq<string>, seen: set<string>): Option<set<string>> {
    if paths == [] then Some(seen)
    else if paths[0] !in known || paths[0] in seen then None
    else SeePaths(known, paths[1..], seen + {paths[0]})
  }

  function Accept(known: seq<string>, folders: seq<Folder>, ids: set<string>, seen: set<string>): Result<seq<Folder>> {
    if folders == [] then Ok([])
    else
      var f := folders[0].(id := TrimSpace(folders[0].id), name := TrimSpace(folders[0].name));
      if f.id == "" || |f.id| > MAX_ID || f.id in ids then Err(BadId)
      else if f.name == "" || |f.name| > MAX_NAME then Err(BadName)
      else
        match SeePaths(known, f.paths, seen)
        case None => Err(BadPath)
        case Some(more) =>
          match Accept(known, folders[1..], ids + {f.id}, more)
          case Err(e) => Err(e)
          case Ok(rest) => Ok([f] + rest)
  }

  function Updated(s: Shelf, folders: seq<Folder>, stored: bool): Result<Shelf> {
    if |folders| > MAX_FOLDERS then Err(TooMany)
    else
      match Accept(s.hints, folders, {}, {})
      case Err(e) => Err(e)
      case Ok(next) => if stored then Ok(s.(folders := next)) else Err(NotStored)
  }

  class Service {
    var entries: map<string, string>
    var hints: seq<string>
    var folders: seq<Folder>

    function View(): Shelf
      reads this
    {
      Shelf(hints, folders)
    }

    constructor ()
      ensures View() == Shelf([], []) && entries == map[]
    {
      entries, hints, folders := map[], [], [];
    }

    method RememberLocked(path: string)
      modifies this`hints
      ensures hints == Remember(old(hints), path)
    {
      var next := [path];
      var i := 0;
      while i < |hints|
        invariant i <= |hints|
        invariant hints == old(hints)
        invariant next == [path] + Without(hints[..i], path) && |next| < MAX_HINTS
      {
        assert hints[..i + 1][..i] == hints[..i];
        if hints[i] != path {
          next := next + [hints[i]];
          if |next| == MAX_HINTS {
            assert next == [path] + Without(hints[..i + 1], path);
            WithoutPrefix(hints, i + 1, path);
            break;
          }
        }
        i := i + 1;
      }
      if i == |hints| { assert hints[..i] == hints; }
      hints := next;
    }

    /** `resolved` is the canonical directory, absent if it does not resolve;
        `newId` is the random id a new entry would get. */
    method Open(resolved: Option<string>, newId: string) returns (id: Option<string>)
      requires newId !in entries
      modifies this
      ensures folders == old(folders)
      ensures resolved.None? ==> id.None? && View() == old(View()) && entries == old(entries)
      ensures resolved.Some? ==>
                && hints == Remember(old(hints), resolved.value)
                && id.Some? && id.value in entries && entries[id.value] == resolved.value
                && entries == old(entries)[id.value := resolved.value]
                && (id.value == newId <==> forall k :: k in old(entries) ==> old(entries)[k] != resolved.value)
    {
      if resolved.None? { return None; }
      RememberLocked(resolved.value);
      if k :| k in entries && entries[k] == resolved.value {
        assert entries == entries[k := resolved.value];
        return Some(k);
      }
      entries := entries[newId := resolved.value];
      return Some(newId);
    }

    method Remove(path: string, stored: bool) returns (ok: bool)
      modifies this`hints, this`folders
      ensures View() == Removed(old(View()), path)
      ensures ok == (stored || path !in old(hints))
    {
      var next: seq<string> := [];
      var i := 0;
      while i < |hints|
        invariant i <= |hints| && next == Without(hints[..i], path)
        invariant |next| == i <==> path !in hints[..i]
        invariant |next| <= i
      {
        assert hints[..i + 1] == hints[..i] + [hints[i]];
        if hints[i] != path { next := next + [hints[i]]; }
        i := i + 1;
      }
      assert hints[..i] == hints;
      if |next| == |hints| { return true; }
      hints := next;
      RemovePathFromFoldersLocked(path);
      return stored;
    }

    /** The paths other than one, in order. */
    static method Keep(paths: seq<string>, path: string) returns (next: seq<string>)
      ensures next == Without(paths, path)
    {
      next := [];
      var k := 0;
      while k < |paths|
        invariant k <= |paths| && next == Without(paths[..k], path)
      {
        assert paths[..k + 1][..k] == paths[..k];
        if paths[k] != path { next := next + [paths[k]]; }
        k := k + 1;
      }
      assert paths[..k] == paths;
    }

    method RemovePathFromFoldersLocked(path: string)
      modifies this`folders
      ensures folders == Dropped(old(folders), path)
    {
      hide Without;
      var i := 0;
      while i < |folders|
        invariant i <= |folders| == |old(folders)|
        invariant forall k :: 0 <= k < i ==> folders[k] == Dropped(old(folders), path)[k]
        invariant forall k :: i <= k < |folders| ==> folders[k] == old(folders)[k]
      {
        var next := Keep(folders[i].paths, path);
        folders := folders[i := folders[i].(paths := next)];
        i := i + 1;
      }
    }

    method UpdateFolders(wanted: seq<Folder>, stored: bool) returns (r: Result<()>)
      modifies this`folders
      ensures Updated(old(View()), wanted, stored).Ok? ==> r.Ok? && View() == Updated(old(View()), wanted, stored).value
      ensures Updated(old(View()), wanted, stored).Err? ==>
                r == Err(Updated(old(View()), wanted, stored).fault) && View() == old(View())
    {
      if |wanted| > MAX_FOLDERS { return Err(TooMany); }
      var ids: set<string> := {};
      var seen: set<string> := {};
      var next: seq<Folder> := [];
      var i := 0;
      assert wanted[0..] == wanted;
      NothingBehind(Accept(hints, wanted, ids, seen));
      while i < |wanted|
        invariant i <= |wanted| && folders == old(folders)
        invariant Accept(hints, wanted, {}, {}) == Behind(next, Accept(hints, wanted[i..], ids, seen))
      {
        var f := wanted[i].(id := TrimSpace(wanted[i].id), name := TrimSpace(wanted[i].name));
        if f.id == "" || |f.id| > MAX_ID || f.id in ids { return Err(BadId); }
        if f.name == "" || |f.name| > MAX_NAME { return Err(BadName); }
        assert wanted[i..][1..] == wanted[i + 1..];
        var ok, more := MarkPaths(f.paths, seen);
        if !ok { return Err(BadPath); }
        BehindMore(next, f, Accept(hints, wanted[i + 1..], ids + {f.id}, more));
        ids, seen := ids + {f.id}, more;
        next := next + [f];
        i := i + 1;
      }
      assert wanted[i..] == [] && next + [] == next;
      assert Accept(hints, wanted, {}, {}) == Ok(next);
      if !stored { return Err(NotStored); }
      folders := next;
      return Ok(());
    }

    /** Reading the stored history at the start. */
    method LoadHistory(file: History, resolve: string -> Option<string>)
      requires View() == Shelf([], [])
      modifies this`hints, this`folders
      ensures View() == Load(file, resolve)
    {
      if file.Unreadable? { return; }
      if file.size > MAX_HISTORY { return; }
      var i := 0;
      while i < |file.contents.hints| && |hints| < MAX_HINTS
        invariant i <= |file.contents.hints| && folders == []
        invariant hints == LoadHints(file.contents.hints[..i], resolve)
      {
        assert file.contents.hints[..i + 1][..i] == file.contents.hints[..i];
        var canon := resolve(file.contents.hints[i]);
        if canon.Some? && canon.value !in hints { hints := hints + [canon.value]; }
        i := i + 1;
      }
      FullIsFull(file.contents.hints, i, resolve);
      LoadFoldersInto(file.contents.folders);
    }

    method LoadFoldersInto(stored: seq<Folder>)
      requires folders == []
      modifies this`folders
      ensures folders == LoadFolders(hints, stored, MAX_FOLDERS, {})
    {
      hide LoadPaths, TrimSpace, LoadFolders, Listed;
      var seen: set<string> := {};
      var i := 0;
      assert stored[0..] == stored;
      assert [] + LoadFolders(hints, stored, MAX_FOLDERS, {}) == LoadFolders(hints, stored, MAX_FOLDERS, {});
      while i < |stored|
        invariant i <= |stored| && |folders| <= MAX_FOLDERS
        invariant LoadFolders(hints, stored, MAX_FOLDERS, {})
                  == folders + LoadFolders(hints, stored[i..], MAX_FOLDERS - |folders|, seen)
      {
        var f := stored[i];
        assert stored[i..][0] == f && stored[i..][1..] == stored[i + 1..];
        if TrimSpace(f.id) == "" || TrimSpace(f.name) == "" || |folders| == MAX_FOLDERS {
          LoadSkips(hints, stored[i..], MAX_FOLDERS - |folders|, seen);
        } else {
          LoadOne(hints, stored[i..], MAX_FOLDERS - |folders|, seen);
          var paths, more := KeepKnown(f.paths, seen);
          var rest := LoadFolders(hints, stored[i + 1..], MAX_FOLDERS - |folders| - 1, more);
          assert folders + ([f.(paths := paths)] + rest) == (folders + [f.(paths := paths)]) + rest;
          folders := folders + [f.(paths := paths)];
          seen := more;
        }
        i := i + 1;
      }
      NothingToLoad(hints, MAX_FOLDERS - |folders|, seen);
      assert stored[i..] == [] && folders + [] == folders;
    }

    method KeepKnown(paths: seq<string>, seen: set<string>) returns (kept: seq<string>, more: set<string>)
      ensures kept == LoadPaths(hints, paths, seen) && more == Listed(hints, paths, seen)
    {
      kept, more := [], seen;
      var k := 0;
      assert paths[0..] == paths;
      while k < |paths|
        invariant k <= |paths| && more == seen + set p | p in kept
        invariant LoadPaths(hints, paths, seen) == kept + LoadPaths(hints, paths[k..], more)
      {
        assert paths[k..][1..] == paths[k + 1..];
        if paths[k] in hints && paths[k] !in more {
          var rest := LoadPaths(hints, paths[k + 1..], more + {paths[k]});
          assert kept + ([paths[k]] + rest) == (kept + [paths[k]]) + rest;
          kept := kept + [paths[k]];
          more := more + {paths[k]};
        }
        k := k + 1;
      }
      assert kept + [] == kept;
    }

    method MarkPaths(paths: seq<string>, seen: set<string>) returns (ok: bool, more: set<string>)
      ensures ok == SeePaths(hints, paths, seen).Some?
      ensures ok ==> more == SeePaths(hints, paths, seen).value
    {
      more := seen;
      var k := 0;
      while k < |paths|
        invariant k <= |paths| && SeePaths(hints, paths, seen) == SeePaths(hints, paths[k..], more)
      {
        if paths[k] !in hints || paths[k] in more { return false, more; }
        assert paths[k..][1..] == paths[k + 1..];
        more := more + {paths[k]};
        k := k + 1;
      }
      return true, more;
    }
  }

  lemma {:induction false} WithoutPrefix(s: seq<string>, k: nat, p: string)
    requires k <= |s|
    ensures Without(s[..k], p) <= Without(s, p)
    decreases |s|
  {
    if k == |s| {
      assert s[..k] == s;
    } else {
      assert s[..|s| - 1][..k] == s[..k];
      WithoutPrefix(s[..|s| - 1], k, p);
    }
  }

  function Behind(done: seq<Folder>, r: Result<seq<Folder>>): Result<seq<Folder>> {
    match r case Err(e) => Err(e) case Ok(rest) => Ok(done + rest)
  }

  lemma NothingBehind(r: Result<seq<Folder>>)
    ensures Behind([], r) == r
  {
    if r.Ok? { assert [] + r.value == r.value; }
  }

  lemma BehindMore(done: seq<Folder>, f: Folder, r: Result<seq<Folder>>)
    ensures Behind(done, Behind([f], r)) == Behind(done + [f], r)
  {
    if r.Ok? { assert done + ([f] + r.value) == (done + [f]) + r.value; }
  }

  // ------------------------------------------------------ most recently used

  /** All distinct paths, the most recently opened first. */
  function Recent(opens: seq<string>): seq<string> {
    if opens == [] then []
    else [opens[|opens| - 1]] + Without(Recent(opens[..|opens| - 1]), opens[|opens| - 1])
  }

  /** When a path was last opened. */
  ghost function LastOpen(opens: seq<string>, p: string): (k: nat)
    requires p in opens
    ensures k < |opens| && opens[k] == p && forall j :: k < j < |opens| ==> opens[j] != p
  {
    if opens[|opens| - 1] == p then |opens| - 1
    else
      assert opens == opens[..|opens| - 1] + [opens[|opens| - 1]];
      LastOpen(opens[..|opens| - 1], p)
  }

  lemma {:induction false} WithoutDistinct(s: seq<string>, p: string)
    requires NoRepeats(s)
    ensures NoRepeats(Without(s, p))
  {
    if s != [] {
      var init, last := s[..|s| - 1], s[|s| - 1];
      WithoutDistinct(init, p);
      assert last !in init;
    }
  }

  /** Where the `i`-th and `j`-th of what is kept stood before. */
  lemma {:induction false} WithoutOrder(s: seq<string>, p: string, i: nat, j: nat) returns (a: nat, b: nat)
    requires i < j < |Without(s, p)|
    ensures a < b < |s| && s[a] == Without(s, p)[i] && s[b] == Without(s, p)[j]
  {
    var init := s[..|s| - 1];
    var q := Without(init, p);
    if j < |q| {
      a, b := WithoutOrder(init, p, i, j);
    } else {
      assert q[i] in init;
      a :| 0 <= a < |init| && init[a] == q[i];
      b := |s| - 1;
    }
  }

  lemma {:induction false} RecentMembers(opens: seq<string>)
    ensures NoRepeats(Recent(opens))
    ensures forall p :: p in Recent(opens) <==> p in opens
  {
    if opens != [] {
      var init, p := opens[..|opens| - 1], opens[|opens| - 1];
      RecentMembers(init);
      WithoutDistinct(Recent(init), p);
      assert opens == init + [p] && p !in Without(Recent(init), p);
    }
  }

  lemma RecentStep(opens: seq<string>, k: nat)
    requires k < |Recent(opens)|
    ensures opens != [] && Recent(opens)[k] in opens
    ensures var init, p := opens[..|opens| - 1], opens[|opens| - 1];
            && Recent(opens) == [p] + Without(Recent(init), p)
            && (k > 0 ==> Recent(opens)[k] != p && Recent(opens)[k] in init)
  {
    RecentMembers(opens);
    var init, p := opens[..|opens| - 1], opens[|opens| - 1];
    RecentMembers(init);
    var w := Without(Recent(init), p);
    if k > 0 { assert Recent(opens)[k] == w[k - 1] && w[k - 1] in w; }
  }

  /** Of two listed paths the one opened last comes first. */
  lemma {:induction false} RecentOrder(opens: seq<string>, i: nat, j: nat)
    requires i < j < |Recent(opens)|
    ensures Recent(opens)[i] in opens && Recent(opens)[j] in opens
    ensures LastOpen(opens, Recent(opens)[i]) > LastOpen(opens, Recent(opens)[j])
    decreases |opens|
  {
    hide NoRepeats, Without, Recent, LastOpen;
    RecentStep(opens, i);
    RecentStep(opens, j);
    LastOpenEarlier(opens, Recent(opens)[j]);
    if i > 0 {
      var init, p := opens[..|opens| - 1], opens[|opens| - 1];
      var a, b := WithoutOrder(Recent(init), p, i - 1, j - 1);
      RecentOrder(init, a, b);
      LastOpenEarlier(opens, Recent(opens)[i]);
    } else {
      assert Recent(opens)[i] == opens[|opens| - 1];
    }
  }

  lemma LastOpenEarlier(opens: seq<string>, q: string)
    requires opens != [] && q in opens[..|opens| - 1] && q != opens[|opens| - 1]
    ensures q in opens && LastOpen(opens, q) == LastOpen(opens[..|opens| - 1], q) < |opens| - 1
    ensures LastOpen(opens, opens[|opens| - 1]) == |opens| - 1
  {
  }

  /** `Recent` lists exactly the opened paths, once each, later opens first. */
  lemma RecentIsByLastOpen(opens: seq<string>)
    ensures NoRepeats(Recent(opens))
    ensures forall p :: p in Recent(opens) <==> p in opens
    ensures forall i, j :: 0 <= i < j < |Recent(opens)| ==>
              LastOpen(opens, Recent(opens)[i]) > LastOpen(opens, Recent(opens)[j])
  {
    RecentMembers(opens);
    forall i, j | 0 <= i < j < |Recent(opens)|
      ensures LastOpen(opens, Recent(opens)[i]) > LastOpen(opens, Recent(opens)[j])
    {
      RecentOrder(opens, i, j);
    }
  }

  /** The hint list after a run of opens from nothing. */
  function AfterOpens(opens: seq<string>): seq<string> {
    if opens == [] then [] else Remember(AfterOpens(opens[..|opens| - 1]), opens[|opens| - 1])
  }

  lemma {:induction false} WithoutFirst(s: seq<string>, n: nat, p: string)
    requires NoRepeats(s)
    ensures First(Without(s, p), n) == First(Without(First(s, n + 1), p), n)
    decreases |s|
  {
    hide Without, NoRepeats;
    if |s| > n + 1 {
      var init := s[..|s| - 1];
      InitDistinct(s);
      WithoutFirst(init, n, p);
      assert init[..n + 1] == s[..n + 1];
      assert First(init, n + 1) == s[..n + 1];
      WithoutPrefix(s, |s| - 1, p);
      WithoutShort(init, p);
      FirstOfPrefix(Without(init, p), Without(s, p), n);
    }
  }

  lemma InitDistinct(s: seq<string>)
    requires NoRepeats(s) && s != []
    ensures NoRepeats(s[..|s| - 1])
  {
  }

  lemma FirstOfPrefix(a: seq<string>, b: seq<string>, n: nat)
    requires a <= b && |a| >= n
    ensures First(a, n) == First(b, n)
  {
    assert First(a, n) == a[..n] && First(b, n) == b[..n];
  }

  /** Leaving out one path from a list without repeats costs at most one entry. */
  lemma {:induction false} WithoutShort(s: seq<string>, p: string)
    requires NoRepeats(s)
    ensures |Without(s, p)| >= |s| - 1
    ensures p !in s ==> Without(s, p) == s
  {
    if s != [] {
      var init := s[..|s| - 1];
      assert s == init + [s[|s| - 1]];
      WithoutShort(init, p);
      if s[|s| - 1] == p { assert p !in init; }
    }
  }

  /** Truncating at every open loses nothing: the list is always the first ten
      of all paths by latest open. */
  lemma {:induction false} HintsAreRecent(opens: seq<string>)
    ensures AfterOpens(opens) == First(Recent(opens), MAX_HINTS)
  {
    if opens != [] {
      var init, p := opens[..|opens| - 1], opens[|opens| - 1];
      HintsAreRecent(init);
      RecentMembers(init);
      PushFirst(Recent(init), p);
    }
  }

  lemma PushFirst(s: seq<string>, p: string)
    requires NoRepeats(s)
    ensures Remember(First(s, MAX_HINTS), p) == First([p] + Without(s, p), MAX_HINTS)
  {
    WithoutFirst(s, MAX_HINTS - 1, p);
    var a, b := Without(First(s, MAX_HINTS), p), Without(s, p);
    assert First([p] + a, MAX_HINTS) == [p] + First(a, MAX_HINTS - 1);
    assert First([p] + b, MAX_HINTS) == [p] + First(b, MAX_HINTS - 1);
  }

  // -------------------------------------------------------------- invariants

  function AllPaths(folders: seq<Folder>): seq<string> {
    if folders == [] then [] else folders[0].paths + AllPaths(folders[1..])
  }

  /** Hints are distinct and few; no path is in two folders, or twice in one. */
  ghost predicate Tidy(s: Shelf) {
    NoRepeats(s.hints) && |s.hints| <= MAX_HINTS && NoRepeats(AllPaths(s.folders))
  }

  lemma RememberKeeps(hints: seq<string>, p: string)
    requires NoRepeats(hints)
    ensures NoRepeats(Remember(hints, p)) && |Remember(hints, p)| <= MAX_HINTS
  {
    WithoutDistinct(hints, p);
    var w := Without(hints, p);
    assert p !in w && forall i :: 0 <= i < |w| ==> ([p] + w)[i + 1] == w[i];
    assert NoRepeats([p] + w);
  }

  lemma {:induction false} DroppedPaths(folders: seq<Folder>, p: string)
    ensures AllPaths(Dropped(folders, p)) == Without(AllPaths(folders), p)
  {
    if folders != [] {
      DroppedPaths(folders[1..], p);
      assert Dropped(folders, p)[1..] == Dropped(folders[1..], p);
      WithoutAppend(folders[0].paths, AllPaths(folders[1..]), p);
    }
  }

  lemma {:induction false} SeePathsIff(known: seq<string>, paths: seq<string>, seen: set<string>)
    ensures SeePaths(known, paths, seen).Some? <==>
            NoRepeats(paths) && forall p :: p in paths ==> p in known && p !in seen
    ensures SeePaths(known, paths, seen).Some? ==>
            forall p :: p in SeePaths(known, paths, seen).value <==> p in seen || p in paths
  {
    if paths != [] {
      assert paths == [paths[0]] + paths[1..];
      SeePathsIff(known, paths[1..], seen + {paths[0]});
      assert forall i :: 1 <= i < |paths| ==> paths[i] == paths[1..][i - 1];
    }
  }

  function Trimmed(f: Folder): Folder { f.(id := TrimSpace(f.id), name := TrimSpace(f.name)) }

  function AllTrimmed(folders: seq<Folder>): seq<Folder> {
    seq(|folders|, i requires 0 <= i < |folders| => Trimmed(folders[i]))
  }

  ghost predicate GoodFolder(f: Folder) { 0 < |f.id| <= MAX_ID && 0 < |f.name| <= MAX_NAME }

  ghost predicate IdsGood(fs: seq<Folder>, ids: set<string>) {
    && (forall i :: 0 <= i < |fs| ==> GoodFolder(fs[i]) && fs[i].id !in ids)
    && (forall i, j :: 0 <= i < j < |fs| ==> fs[i].id != fs[j].id)
  }

  ghost predicate PathsGood(known: seq<string>, fs: seq<Folder>, seen: set<string>) {
    NoRepeats(AllPaths(fs)) && forall p :: p in AllPaths(fs) ==> p in known && p !in seen
  }

  ghost predicate Acceptable(known: seq<string>, fs: seq<Folder>, ids: set<string>, seen: set<string>) {
    IdsGood(fs, ids) && PathsGood(known, fs, seen)
  }

  lemma {:induction false} AcceptIff(known: seq<string>, folders: seq<Folder>, ids: set<string>, seen: set<string>)
    ensures Accept(known, folders, ids, seen).Ok? <==> Acceptable(known, AllTrimmed(folders), ids, seen)
    ensures Accept(known, folders, ids, seen).Ok? ==> Accept(known, folders, ids, seen).value == AllTrimmed(folders)
  {
    if folders != [] {
      var f, rest := Trimmed(folders[0]), AllTrimmed(folders[1..]);
      assert AllTrimmed(folders) == [f] + rest;
      SeePathsIff(known, f.paths, seen);
      var more := SeePaths(known, f.paths, seen);
      IdsCons(f, rest, ids);
      PathsCons(known, f, rest, seen);
      if more.Some? {
        AcceptIff(known, folders[1..], ids + {f.id}, more.value);
        PathsApart(known, rest, more.value, seen, f.paths);
      }
      hide IdsGood, PathsGood, Apart, NoRepeats, SeePaths;
    }
  }

  ghost predicate Apart(rest: seq<Folder>, paths: seq<string>) {
    forall p :: p in AllPaths(rest) ==> p !in paths
  }

  lemma PathsApart(known: seq<string>, rest: seq<Folder>, more: set<string>, seen: set<string>, paths: seq<string>)
    requires forall p :: p in more <==> p in seen || p in paths
    ensures PathsGood(known, rest, more) <==> PathsGood(known, rest, seen) && Apart(rest, paths)
  {
  }

  lemma IdsCons(f: Folder, rest: seq<Folder>, ids: set<string>)
    ensures IdsGood([f] + rest, ids) <==> GoodFolder(f) && f.id !in ids && IdsGood(rest, ids + {f.id})
  {
    var fs := [f] + rest;
    assert fs[0] == f;
    assert forall i :: 0 <= i < |rest| ==> fs[i + 1] == rest[i];
    assert forall i :: 1 <= i < |fs| ==> fs[i] == rest[i - 1];
    hide GoodFolder;
  }

  lemma PathsCons(known: seq<string>, f: Folder, rest: seq<Folder>, seen: set<string>)
    ensures PathsGood(known, [f] + rest, seen) <==>
            && NoRepeats(f.paths) && (forall p :: p in f.paths ==> p in known && p !in seen)
            && PathsGood(known, rest, seen) && Apart(rest, f.paths)
  {
    assert ([f] + rest)[1..] == rest;
    assert AllPaths([f] + rest) == f.paths + AllPaths(rest);
    RepeatsSplit(f.paths, AllPaths(rest));
    hide NoRepeats;
  }

  lemma RepeatsSplit(a: seq<string>, b: seq<string>)
    ensures NoRepeats(a + b) <==> NoRepeats(a) && NoRepeats(b) && forall p :: p in b ==> p !in a
  {
    if NoRepeats(a + b) {
      forall i, j | 0 <= i < j < |b| ensures b[i] != b[j] {
        assert (a + b)[|a| + i] == b[i] && (a + b)[|a| + j] == b[j];
      }
      forall i, j | 0 <= i < j < |a| ensures a[i] != a[j] {
        assert (a + b)[i] == a[i] && (a + b)[j] == a[j];
      }
      forall p | p in b ensures p !in a {
        var j :| 0 <= j < |b| && b[j] == p;
        forall i | 0 <= i < |a| ensures a[i] != p {
          assert (a + b)[i] == a[i] && (a + b)[|a| + j] == p;
        }
      }
    }
    if NoRepeats(a) && NoRepeats(b) && forall p :: p in b ==> p !in a {
      forall i, j | 0 <= i < j < |a + b| ensures (a + b)[i] != (a + b)[j] {
        if i < |a| <= j { assert (a + b)[j] in b && (a + b)[i] in a; }
      }
    }
  }

  /** An update is taken exactly when there are at most 50 folders with distinct
      trimmed ids and good names, every path is a known project, and no path is
      listed twice anywhere; it then replaces all folders, trimmed. */
  lemma UpdateIff(s: Shelf, folders: seq<Folder>, stored: bool)
    ensures Updated(s, folders, stored).Ok? <==>
            |folders| <= MAX_FOLDERS && Acceptable(s.hints, AllTrimmed(folders), {}, {}) && stored
    ensures Updated(s, folders, stored).Ok? ==> Updated(s, folders, stored).value == Shelf(s.hints, AllTrimmed(folders))
  {
    AcceptIff(s.hints, folders, {}, {});
  }

  datatype Op = Open(path: string) | Remove(path: string) | SetFolders(folders: seq<Folder>, stored: bool)

  function Do(s: Shelf, op: Op): Shelf {
    match op
    case Open(p) => s.(hints := Remember(s.hints, p))
    case Remove(p) => Removed(s, p)
    case SetFolders(folders, stored) =>
      match Updated(s, folders, stored) case Ok(t) => t case Err(_) => s
  }

  function DoAll(s: Shelf, ops: seq<Op>): Shelf {
    if ops == [] then s else Do(DoAll(s, ops[..|ops| - 1]), ops[|ops| - 1])
  }

  lemma DoKeepsTidy(s: Shelf, op: Op)
    requires Tidy(s)
    ensures Tidy(Do(s, op))
  {
    match op
    case Open(p) => RememberKeeps(s.hints, p);
    case Remove(p) =>
      WithoutDistinct(s.hints, p);
      DroppedPaths(s.folders, p);
      WithoutDistinct(AllPaths(s.folders), p);
    case SetFolders(folders, stored) => UpdateIff(s, folders, stored);
  }

  /** Over any run of opens, removals and folder updates. */
  lemma {:induction false} RunsKeepTidy(s: Shelf, ops: seq<Op>)
    requires Tidy(s)
    ensures Tidy(DoAll(s, ops))
  {
    if ops != [] {
      RunsKeepTidy(s, ops[..|ops| - 1]);
      DoKeepsTidy(DoAll(s, ops[..|ops| - 1]), ops[|ops| - 1]);
    }
  }

  /** A removal takes a path out of every folder if and only if the path is a
      hint or in no folder: one that ten newer projects pushed off the list
      stays in its folder. */
  lemma RemovalIff(s: Shelf, p: string)
    ensures p !in AllPaths(Removed(s, p).folders) <==> p in s.hints || p !in AllPaths(s.folders)
  {
    DroppedPaths(s.folders, p);
  }

  /** Removing a hint leaves the other hints and, in every folder, the other paths
      as they were; removing anything else changes nothing. */
  lemma RemovalSays(s: Shelf, p: string)
    ensures var t := Removed(s, p);
            && (p !in s.hints ==> t == s)
            && (p in s.hints ==>
                  && t.hints == Without(s.hints, p) && |t.folders| == |s.folders|
                  && forall i :: 0 <= i < |s.folders| ==>
                       t.folders[i] == s.folders[i].(paths := Without(s.folders[i].paths, p)))
  {
  }

  // ------------------------------------------------- pushed off the list

  function Opens(qs: seq<string>): (ops: seq<Op>)
    ensures |ops| == |qs|
  {
    seq(|qs|, i requires 0 <= i < |qs| => Open(qs[i]))
  }

  function Reversed(qs: seq<string>): (r: seq<string>)
    ensures |r| == |qs| && forall x :: x in r <==> x in qs
  {
    if qs == [] then []
    else
      assert qs == qs[..|qs| - 1] + [qs[|qs| - 1]];
      [qs[|qs| - 1]] + Reversed(qs[..|qs| - 1])
  }

  lemma {:induction false} DoAllAppend(s: Shelf, a: seq<Op>, b: seq<Op>)
    ensures DoAll(s, a + b) == DoAll(DoAll(s, a), b)
    decreases |b|
  {
    if b == [] {
      assert a + b == a;
    } else {
      assert (a + b)[..|a + b| - 1] == a + b[..|b| - 1];
      DoAllAppend(s, a, b[..|b| - 1]);
    }
  }

  lemma RememberNew(hints: seq<string>, q: string)
    requires q !in hints
    ensures Remember(hints, q) == First([q] + hints, MAX_HINTS)
  {
    WithoutAbsent(hints, q);
  }

  /** Opening new projects one after another puts them in front, last first. */
  lemma {:induction false} OpenNew(s: Shelf, qs: seq<string>)
    requires NoRepeats(qs) && (forall q :: q in qs ==> q !in s.hints) && |s.hints| <= MAX_HINTS
    ensures DoAll(s, Opens(qs)) == s.(hints := First(Reversed(qs) + s.hints, MAX_HINTS))
    decreases |qs|
  {
    hide NoRepeats, Remember, Without, Updated, First, Reversed, DoAll, Do;
    OpensStep(s, qs);
    FirstIsPart(s.hints);
    if qs == [] {
      assert Reversed(qs) + s.hints == s.hints;
    } else {
      var init, q := qs[..|qs| - 1], qs[|qs| - 1];
      LastApart(qs);
      OpenNew(s, init);
      var all := Reversed(init) + s.hints;
      FirstIsPart(all);
      RememberNew(First(all, MAX_HINTS), q);
      PushTwice(q, all);
      assert [q] + all == Reversed(qs) + s.hints;
    }
  }

  lemma OpensStep(s: Shelf, qs: seq<string>)
    ensures qs == [] ==> DoAll(s, Opens(qs)) == s && Reversed(qs) == []
    ensures qs != [] ==>
              var init, q := qs[..|qs| - 1], qs[|qs| - 1];
              var t := DoAll(s, Opens(init));
              && DoAll(s, Opens(qs)) == t.(hints := Remember(t.hints, q))
              && Reversed(qs) == [q] + Reversed(init)
  {
    if qs != [] { assert Opens(qs)[..|qs| - 1] == Opens(qs[..|qs| - 1]); }
  }

  lemma LastApart(qs: seq<string>)
    requires NoRepeats(qs) && qs != []
    ensures NoRepeats(qs[..|qs| - 1]) && qs[|qs| - 1] !in qs[..|qs| - 1] && qs[|qs| - 1] in qs
    ensures forall x :: x in qs[..|qs| - 1] ==> x in qs
  {
  }

  lemma FirstIsPart(s: seq<string>)
    ensures forall x :: x in First(s, MAX_HINTS) ==> x in s
    ensures |s| <= MAX_HINTS ==> First(s, MAX_HINTS) == s
  {
  }

  lemma PushTwice(q: string, hints: seq<string>)
    ensures First([q] + First(hints, MAX_HINTS), MAX_HINTS) == First([q] + hints, MAX_HINTS)
  {
  }

  /** From an empty service: open a project, put it in a folder, open ten
      others. It is then in its folder and no longer a hint, and removing it
      changes nothing. */
  lemma PushedOff(p: string, qs: seq<string>)
    requires |qs| == MAX_HINTS && NoRepeats(qs) && p !in qs
    ensures var ops := [Open(p), SetFolders([Folder("f", "f", [p])], true)] + Opens(qs);
            var t := DoAll(Shelf([], []), ops);
            && Tidy(t) && p in AllPaths(t.folders) && p !in t.hints && Do(t, Remove(p)) == t
  {
    var empty, ops := Shelf([], []), [Open(p), SetFolders([Folder("f", "f", [p])], true)];
    RunsKeepTidy(empty, ops + Opens(qs));
    OneInFolder(p);
    DoAllAppend(empty, ops, Opens(qs));
    OpenNew(DoAll(empty, ops), qs);
    assert First(Reversed(qs) + [p], MAX_HINTS) == Reversed(qs);
    OnePath("f", "f", [p]);
    hide Reversed, Tidy, DoAll, AllPaths;
  }

  lemma OnePath(id: string, name: string, paths: seq<string>)
    ensures AllPaths([Folder(id, name, paths)]) == paths
  {
    assert [Folder(id, name, paths)][1..] == [];
    assert paths + [] == paths;
  }

  lemma OneInFolder(p: string)
    ensures DoAll(Shelf([], []), [Open(p), SetFolders([Folder("f", "f", [p])], true)])
            == Shelf([p], [Folder("f", "f", [p])])
  {
    var empty: Shelf := Shelf([], []);
    FolderAll(Shelf([p], []), [p]);
    hide Updated, Remember;
    assert DoAll(empty, []) == empty;
    assert [Open(p)][..0] == [];
    assert Remember([], p) == [p] by { RememberNew([], p); FirstOne(p); }
    assert DoAll(empty, [Open(p)]) == Shelf([p], []);
    var ops := [Open(p), SetFolders([Folder("f", "f", [p])], true)];
    assert ops[..1] == [Open(p)];
  }

  lemma FirstOne(p: string)
    ensures First([p] + [], MAX_HINTS) == [p]
  {
  }

  /** One folder over distinct hints is accepted as it is. */
  lemma FolderAll(s: Shelf, paths: seq<string>)
    requires NoRepeats(paths) && forall p :: p in paths ==> p in s.hints
    ensures Updated(s, [Folder("f", "f", paths)], true) == Ok(Shelf(s.hints, [Folder("f", "f", paths)]))
  {
    var f := Folder("f", "f", paths);
    UpdateIff(s, [f], true);
    assert TrimSpace("f") == "f";
    assert Trimmed(f) == f && AllTrimmed([f]) == [f];
    OnePath("f", "f", paths);
    hide Updated, NoRepeats, AllPaths;
  }

  /** A concrete instance. */
  lemma PushedOffHappens()
    ensures exists ops, p ::
              var t := DoAll(Shelf([], []), ops);
              p in AllPaths(t.folders) && p !in t.hints && Do(t, Remove(p)) == t
  {
    var qs := ["0", "1", "2", "3", "4", "5", "6", "7", "8", "9"];
    PushedOff("p", qs);
  }

  // --------------------------------------------------------------- reloading

  const MAX_HISTORY := 65536

  /** What the service finds at its next start: a file it cannot read or does
      not understand, or one of a size with these contents. */
  datatype History = Unreadable | Stored(size: nat, contents: Shelf)

  /** Paths that no longer resolve and repeats are skipped, up to ten. */
  function LoadHints(paths: seq<string>, resolve: string -> Option<string>): (r: seq<string>)
    ensures |r| <= MAX_HINTS
  {
    if paths == [] then []
    else
      var r := LoadHints(paths[..|paths| - 1], resolve);
      match resolve(paths[|paths| - 1])
      case None => r
      case Some(p) => if p in r || |r| == MAX_HINTS then r else r + [p]
  }

  /** Folders keep only known paths, each once. */
  function LoadPaths(known: seq<string>, paths: seq<string>, seen: set<string>): seq<string> {
    if paths == [] then []
    else if paths[0] in known && paths[0] !in seen then
      [paths[0]] + LoadPaths(known, paths[1..], seen + {paths[0]})
    else LoadPaths(known, paths[1..], seen)
  }

  function Listed(known: seq<string>, paths: seq<string>, seen: set<string>): set<string> {
    seen + set p | p in LoadPaths(known, paths, seen)
  }

  function LoadFolders(known: seq<string>, folders: seq<Folder>, room: nat, seen: set<string>): seq<Folder> {
    if folders == [] then []
    else if TrimSpace(folders[0].id) == "" || TrimSpace(folders[0].name) == "" || room == 0 then
      LoadFolders(known, folders[1..], room, seen)
    else
      [folders[0].(paths := LoadPaths(known, folders[0].paths, seen))]
      + LoadFolders(known, folders[1..], room - 1, Listed(known, folders[0].paths, seen))
  }

  /** A file over 64 KiB is refused whole. */
  function Load(file: History, resolve: string -> Option<string>): Shelf {
    match file
    case Unreadable => Shelf([], [])
    case Stored(size, stored) =>
      if size > MAX_HISTORY then Shelf([], [])
      else
        var hints := LoadHints(stored.hints, resolve);
        Shelf(hints, LoadFolders(hints, stored.folders, MAX_FOLDERS, {}))
  }

  /** Ten hints are all that is read. */
  lemma {:induction false} FullIsFull(paths: seq<string>, k: nat, resolve: string -> Option<string>)
    requires k <= |paths| && (k == |paths| || |LoadHints(paths[..k], resolve)| == MAX_HINTS)
    ensures LoadHints(paths, resolve) == LoadHints(paths[..k], resolve)
    decreases |paths|
  {
    if k == |paths| {
      assert paths[..k] == paths;
    } else {
      assert paths[..|paths| - 1][..k] == paths[..k];
      FullIsFull(paths[..|paths| - 1], k, resolve);
    }
  }

  lemma {:induction false} LoadHintsSame(hints: seq<string>, resolve: string -> Option<string>)
    requires NoRepeats(hints) && |hints| <= MAX_HINTS && forall p :: p in hints ==> resolve(p) == Some(p)
    ensures LoadHints(hints, resolve) == hints
  {
    if hints != [] {
      var init := hints[..|hints| - 1];
      assert hints == init + [hints[|hints| - 1]];
      LoadHintsSame(init, resolve);
    }
  }

  lemma {:induction false} LoadPathsSame(known: seq<string>, paths: seq<string>, seen: set<string>)
    requires NoRepeats(paths) && forall p :: p in paths ==> p !in seen
    ensures (LoadPaths(known, paths, seen) == paths) <==> forall p :: p in paths ==> p in known
    ensures |LoadPaths(known, paths, seen)| <= |paths|
    ensures forall p :: p in LoadPaths(known, paths, seen) ==> p in paths
  {
    if paths != [] {
      assert paths == [paths[0]] + paths[1..];
      if paths[0] in known {
        LoadPathsSame(known, paths[1..], seen + {paths[0]});
        assert LoadPaths(known, paths, seen)[1..] == LoadPaths(known, paths[1..], seen + {paths[0]});
      } else {
        LoadPathsSame(known, paths[1..], seen);
      }
    }
  }

  lemma {:induction false} LoadFoldersSame(known: seq<string>, folders: seq<Folder>, room: nat, seen: set<string>)
    requires |folders| <= room && NoRepeats(AllPaths(folders)) && (forall p :: p in AllPaths(folders) ==> p !in seen)
    requires forall f :: f in folders ==> TrimSpace(f.id) != "" && TrimSpace(f.name) != ""
    ensures (LoadFolders(known, folders, room, seen) == folders) <==> forall p :: p in AllPaths(folders) ==> p in known
  {
    hide NoRepeats, LoadPaths, LoadFolders, Listed, AllPaths, TrimSpace;
    if folders == [] {
      NothingToLoad(known, room, seen);
    } else {
      var f, rest := folders[0], folders[1..];
      assert f in folders && forall g :: g in rest ==> g in folders;
      LoadOne(known, folders, room, seen);
      RepeatsSplit(f.paths, AllPaths(rest));
      LoadPathsSame(known, f.paths, seen);
      var more := Listed(known, f.paths, seen);
      ListedIsPart(known, f.paths, seen);
      LoadFoldersSame(known, rest, room - 1, more);
      ConsSame(f.(paths := LoadPaths(known, f.paths, seen)), LoadFolders(known, rest, room - 1, more), f, rest);
      assert folders == [f] + rest && f == f.(paths := f.paths);
    }
  }

  lemma NothingToLoad(known: seq<string>, room: nat, seen: set<string>)
    ensures LoadFolders(known, [], room, seen) == [] && AllPaths([]) == []
  {
  }

  lemma LoadSkips(known: seq<string>, folders: seq<Folder>, room: nat, seen: set<string>)
    requires folders != [] && (room == 0 || TrimSpace(folders[0].id) == "" || TrimSpace(folders[0].name) == "")
    ensures LoadFolders(known, folders, room, seen) == LoadFolders(known, folders[1..], room, seen)
  {
  }

  lemma LoadOne(known: seq<string>, folders: seq<Folder>, room: nat, seen: set<string>)
    requires folders != [] && room > 0 && TrimSpace(folders[0].id) != "" && TrimSpace(folders[0].name) != ""
    ensures AllPaths(folders) == folders[0].paths + AllPaths(folders[1..])
    ensures LoadFolders(known, folders, room, seen)
            == [folders[0].(paths := LoadPaths(known, folders[0].paths, seen))]
               + LoadFolders(known, folders[1..], room - 1, Listed(known, folders[0].paths, seen))
  {
  }

  lemma ListedIsPart(known: seq<string>, paths: seq<string>, seen: set<string>)
    requires forall p :: p in LoadPaths(known, paths, seen) ==> p in paths
    ensures forall p :: p in Listed(known, paths, seen) ==> p in seen || p in paths
  {
  }

  lemma ConsSame(g: Folder, r: seq<Folder>, f: Folder, rest: seq<Folder>)
    ensures [g] + r == [f] + rest <==> g == f && r == rest
  {
    assert ([g] + r)[0] == g && ([g] + r)[1..] == r && ([f] + rest)[0] == f && ([f] + rest)[1..] == rest;
  }

  /** Storing and reading back restores the shelf if and only if it is empty, or
      its text fits in 64 KiB and every path in a folder is still a hint. The
      stored text is taken to decode to itself. */
  lemma ReloadIff(s: Shelf, file: History, resolve: string -> Option<string>)
    requires Tidy(s) && |s.folders| <= MAX_FOLDERS && file.Stored? && file.contents == s
    requires forall p :: p in s.hints ==> resolve(p) == Some(p)
    requires forall f :: f in s.folders ==> TrimSpace(f.id) != "" && TrimSpace(f.name) != ""
    ensures Load(file, resolve) == s
            <==> s == Shelf([], [])
                 || (file.size <= MAX_HISTORY && forall p :: p in AllPaths(s.folders) ==> p in s.hints)
  {
    LoadHintsSame(s.hints, resolve);
    LoadFoldersSame(s.hints, s.folders, MAX_FOLDERS, {});
  }

  function TotalLength(texts: seq<string>): nat {
    if texts == [] then 0 else |texts[0]| + TotalLength(texts[1..])
  }

  /** The bytes of all paths that are stored. */
  function TextBytes(s: Shelf): nat { TotalLength(s.hints) + TotalLength(AllPaths(s.folders)) }

  lemma {:induction false} LongTexts(texts: seq<string>)
    requires forall t :: t in texts ==> |t| >= 4000
    ensures TotalLength(texts) >= 4000 * |texts|
  {
    if texts != [] {
      assert texts[0] in texts && forall t :: t in texts[1..] ==> t in texts;
      LongTexts(texts[1..]);
    }
  }

  /** From an empty service: ten projects with paths of 4000 bytes, all in one
      folder. Every folder path is a hint, nothing limits what is written, and
      the next start loads nothing. */
  lemma LongHistoryIsLost(ps: seq<string>, file: History, resolve: string -> Option<string>)
    requires |ps| == MAX_HINTS && NoRepeats(ps) && forall p :: p in ps ==> |p| >= 4000
    requires var t := DoAll(Shelf([], []), Opens(ps) + [SetFolders([Folder("f", "f", ps)], true)]);
             file.Stored? && file.contents == t && file.size >= TextBytes(t)
    ensures var t := DoAll(Shelf([], []), Opens(ps) + [SetFolders([Folder("f", "f", ps)], true)]);
            && (forall p :: p in AllPaths(t.folders) ==> p in t.hints)
            && t != Shelf([], []) && Load(file, resolve) == Shelf([], [])
  {
    var empty, update := Shelf([], []), SetFolders([Folder("f", "f", ps)], true);
    OpenNew(empty, ps);
    assert First(Reversed(ps) + [], MAX_HINTS) == Reversed(ps);
    var s := Shelf(Reversed(ps), []);
    FolderAll(s, ps);
    assert (Opens(ps) + [update])[..|ps|] == Opens(ps);
    OnePath("f", "f", ps);
    LongTexts(ps);
    LongTexts(Reversed(ps));
    hide Updated, Reversed, NoRepeats, LoadHints, LoadFolders, AllPaths, TotalLength;
  }

  // ------------------------------------------------- what a reload makes of it

  /** The paths that resolve, as they do. */
  function ResolvedOf(paths: seq<string>, resolve: string -> Option<string>): seq<string> {
    if paths == [] then []
    else
      ResolvedOf(paths[..|paths| - 1], resolve)
      + match resolve(paths[|paths| - 1]) case Some(p) => [p] case None => []
  }

  /** Each entry where it first occurs. */
  function OnceEach(s: seq<string>): (r: seq<string>)
    ensures forall p :: p in r <==> p in s
  {
    if s == [] then []
    else
      var init, last := s[..|s| - 1], s[|s| - 1];
      assert s == init + [last];
      if last in OnceEach(init) then OnceEach(init) else OnceEach(init) + [last]
  }

  lemma OnceSnoc(s: seq<string>, p: string)
    ensures OnceEach(s + [p]) == if p in s then OnceEach(s) else OnceEach(s) + [p]
  {
    var all := s + [p];
    assert all[..|all| - 1] == s && all[|all| - 1] == p && all != [];
    OnceOne(all);
    assert p in OnceEach(s) <==> p in s;
    hide OnceEach;
  }

  lemma OnceOne(s: seq<string>)
    requires s != []
    ensures var init, last := s[..|s| - 1], s[|s| - 1];
            OnceEach(s) == if last in OnceEach(init) then OnceEach(init) else OnceEach(init) + [last]
  {
  }

  /** The hints restored are the first ten projects that still resolve. */
  lemma {:induction false} HintsLoaded(paths: seq<string>, resolve: string -> Option<string>)
    ensures LoadHints(paths, resolve) == First(OnceEach(ResolvedOf(paths, resolve)), MAX_HINTS)
  {
    if paths != [] {
      hide OnceEach;
      var init := paths[..|paths| - 1];
      HintsLoaded(init, resolve);
      var before, found := ResolvedOf(init, resolve), resolve(paths[|paths| - 1]);
      if found.Some? {
        OnceSnoc(before, found.value);
        FirstSnoc(OnceEach(before), found.value);
      } else {
        assert before + [] == before;
      }
    }
  }

  lemma FirstSnoc(s: seq<string>, p: string)
    ensures var r := First(s, MAX_HINTS);
            && (|s| >= MAX_HINTS ==> |r| == MAX_HINTS && First(s + [p], MAX_HINTS) == r)
            && (|s| < MAX_HINTS ==> r == s && First(s + [p], MAX_HINTS) == r + [p])
  {
  }

  /** The first folders with an id and a name. */
  function KeptFolders(folders: seq<Folder>, room: nat): seq<Folder> {
    if folders == [] || room == 0 then []
    else if AllBlank(folders[0].id) || AllBlank(folders[0].name) then KeptFolders(folders[1..], room)
    else [folders[0]] + KeptFolders(folders[1..], room - 1)
  }

  lemma {:induction false} PathsLoaded(known: seq<string>, paths: seq<string>, seen: set<string>)
    ensures NoRepeats(LoadPaths(known, paths, seen))
    ensures forall p :: p in LoadPaths(known, paths, seen) <==> p in known && p !in seen && p in paths
  {
    if paths != [] {
      assert paths == [paths[0]] + paths[1..];
      if paths[0] in known && paths[0] !in seen {
        PathsLoaded(known, paths[1..], seen + {paths[0]});
        var rest := LoadPaths(known, paths[1..], seen + {paths[0]});
        assert forall i :: 0 <= i < |rest| ==> rest[i] in rest;
      } else {
        PathsLoaded(known, paths[1..], seen);
      }
    }
  }

  /** A path goes to the first folder that lists it. */
  ghost predicate GoesTo(known: seq<string>, kept: seq<Folder>, seen: set<string>, i: nat, p: string)
    requires i < |kept|
  {
    p in known && p !in seen && p in kept[i].paths && forall j :: 0 <= j < i ==> p !in kept[j].paths
  }

  ghost predicate LoadedFrom(known: seq<string>, r: seq<Folder>, kept: seq<Folder>, seen: set<string>) {
    && |r| == |kept|
    && forall i :: 0 <= i < |r| ==>
         && r[i].id == kept[i].id && r[i].name == kept[i].name && NoRepeats(r[i].paths)
         && forall p :: p in r[i].paths <==> GoesTo(known, kept, seen, i, p)
  }

  lemma BlankIsEmpty(s: string)
    ensures TrimSpace(s) == "" <==> AllBlank(s)
  {
    var a, b := TrimSpaceCuts(s);
    var t := TrimSpace(s);
    if t == "" {
      assert s == a + b;
    } else {
      assert s[|a|] == t[0];
    }
  }

  lemma LoadedCons(known: seq<string>, f: Folder, r: seq<Folder>, kept: seq<Folder>, g: Folder,
                   seen: set<string>, more: set<string>)
    requires g.id == f.id && g.name == f.name && NoRepeats(g.paths)
    requires forall p :: p in g.paths <==> p in known && p !in seen && p in f.paths
    requires forall p :: p in more <==> p in seen || p in g.paths
    requires LoadedFrom(known, r, kept, more)
    ensures LoadedFrom(known, [g] + r, [f] + kept, seen)
  {
    var rs, ks := [g] + r, [f] + kept;
    hide NoRepeats, GoesTo;
    forall i | 0 <= i < |rs|
      ensures rs[i].id == ks[i].id && rs[i].name == ks[i].name && NoRepeats(rs[i].paths)
      ensures forall p :: p in rs[i].paths <==> GoesTo(known, ks, seen, i, p)
    {
      if i > 0 { assert rs[i] == r[i - 1] && ks[i] == kept[i - 1]; } else { assert rs[0] == g && ks[0] == f; }
      forall p ensures p in rs[i].paths <==> GoesTo(known, ks, seen, i, p) {
        if i > 0 { GoesLater(known, f, kept, g.paths, seen, more, i - 1, p); }
        else { GoesFirst(known, f, kept, seen, p); }
      }
    }
  }

  lemma GoesFirst(known: seq<string>, f: Folder, kept: seq<Folder>, seen: set<string>, p: string)
    ensures GoesTo(known, [f] + kept, seen, 0, p) <==> p in known && p !in seen && p in f.paths
  {
  }

  lemma GoesLater(known: seq<string>, f: Folder, kept: seq<Folder>, taken: seq<string>, seen: set<string>,
                  more: set<string>, i: nat, p: string)
    requires i < |kept|
    requires p in taken <==> p in known && p !in seen && p in f.paths
    requires p in more <==> p in seen || p in taken
    ensures GoesTo(known, [f] + kept, seen, i + 1, p) <==> GoesTo(known, kept, more, i, p)
  {
    var ks := [f] + kept;
    assert ks[0] == f && forall j :: 0 <= j < |kept| ==> ks[j + 1] == kept[j];
    assert forall j :: 1 <= j < |ks| ==> ks[j] == kept[j - 1];
  }

  lemma {:induction false} FoldersLoaded(known: seq<string>, folders: seq<Folder>, room: nat, seen: set<string>)
    ensures LoadedFrom(known, LoadFolders(known, folders, room, seen), KeptFolders(folders, room), seen)
  {
    hide LoadedFrom, LoadPaths, TrimSpace, AllBlank, NoRepeats;
    if folders == [] {
      NothingLoaded(known, seen);
    } else {
      var f, rest := folders[0], folders[1..];
      BlankIsEmpty(f.id);
      BlankIsEmpty(f.name);
      if room == 0 || AllBlank(f.id) || AllBlank(f.name) {
        FoldersLoaded(known, rest, room, seen);
        if room == 0 { NoRoom(rest); }
      } else {
        var g := f.(paths := LoadPaths(known, f.paths, seen));
        PathsLoaded(known, f.paths, seen);
        FoldersLoaded(known, rest, room - 1, Listed(known, f.paths, seen));
        LoadedCons(known, f, LoadFolders(known, rest, room - 1, Listed(known, f.paths, seen)),
                   KeptFolders(rest, room - 1), g, seen, Listed(known, f.paths, seen));
      }
    }
  }

  lemma NothingLoaded(known: seq<string>, seen: set<string>)
    ensures LoadedFrom(known, [], [], seen)
  {
  }

  lemma NoRoom(folders: seq<Folder>)
    ensures KeptFolders(folders, 0) == []
  {
  }

  /** What the next start makes of any stored file that it reads: the first ten
      projects that still resolve, and the first fifty proper folders, each with
      those of its paths that are projects now and in no folder before it. */
  lemma LoadSays(file: History, resolve: string -> Option<string>)
    requires file.Stored? && file.size <= MAX_HISTORY
    ensures var t, stored := Load(file, resolve), file.contents;
            && t.hints == First(OnceEach(ResolvedOf(stored.hints, resolve)), MAX_HINTS)
            && LoadedFrom(t.hints, t.folders, KeptFolders(stored.folders, MAX_FOLDERS), {})
  {
    HintsLoaded(file.contents.hints, resolve);
    FoldersLoaded(LoadHints(file.contents.hints, resolve), file.contents.folders, MAX_FOLDERS, {});
  }
}
