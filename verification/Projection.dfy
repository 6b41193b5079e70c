/** The bounded projection of a custom tool's arguments: a recursive copy that
    spends a shared byte budget. */
module Projection {
  import opened Common
  import opened Protocol

  const MAX_STRING := 4000
  const MAX_BYTES := 16384
  const MAX_ITEMS := 40
  const MAX_DEPTH := 4
  const MAX_KEY := 200

  /** A decoded JSON value; `Other` is anything the decoder does not produce. */
  datatype Json =
    | Null | Bool(b: bool) | Number(x: real) | String(s: string)
    | Array(items: seq<Json>) | Object(fields: map<string, Json>) | Other

  function TruncateMultiline(s: string, limit: nat): string {
    if |s| <= limit then s else s[..limit] + ELLIPSIS
  }

  // ---------------------------------------------------------- sorted strings

  /** Byte-wise order of strings. */
  predicate Le(a: string, b: string) {
    a == [] || (b != [] && (a[0] < b[0] || (a[0] == b[0] && Le(a[1..], b[1..]))))
  }

  lemma {:induction false} LeOrder(a: string, b: string, c: string)
    ensures Le(a, b) || Le(b, a)
    ensures Le(a, b) && Le(b, a) ==> a == b
    ensures Le(a, b) && Le(b, c) ==> Le(a, c)
  {
    if a != [] && b != [] {
      if c != [] { LeOrder(a[1..], b[1..], c[1..]); } else { LeOrder(a[1..], b[1..], []); }
      assert a == [a[0]] + a[1..] && b == [b[0]] + b[1..];
    }
  }

  /** The first byte in which two strings differ decides, else the shorter one
      comes first. */
  lemma {:induction false} LeIsByteOrder(p: string, c: char, d: char, s: string, t: string)
    ensures c != d ==> (Le(p + [c] + s, p + [d] + t) <==> c < d)
    ensures Le(p, p + s) && (Le(p + s, p) <==> s == "")
  {
    if p != "" {
      assert (p + [c] + s)[1..] == p[1..] + [c] + s && (p + [d] + t)[1..] == p[1..] + [d] + t;
      assert (p + s)[1..] == p[1..] + s;
      LeIsByteOrder(p[1..], c, d, s, t);
    } else {
      assert p + [c] + s == [c] + s && p + [d] + t == [d] + t && p + s == s;
    }
  }

  predicate IsLeast(k: string, s: set<string>) { k in s && forall j :: j in s ==> Le(k, j) }

  lemma {:induction false} LeastExists(s: set<string>)
    requires s != {}
    ensures exists k :: IsLeast(k, s)
  {
    var x :| x in s;
    LeOrder(x, x, x);
    if s != {x} {
      LeastExists(s - {x});
      var m :| IsLeast(m, s - {x});
      var k := if Le(x, m) then x else m;
      forall j | j in s ensures Le(k, j) {
        LeOrder(x, m, j);
        if j != x { assert j in s - {x}; }
      }
      assert IsLeast(k, s);
    } else {
      assert IsLeast(x, s);
    }
  }

  lemma LeastUnique(s: set<string>, j: string, k: string)
    requires IsLeast(j, s) && IsLeast(k, s)
    ensures j == k
  {
    LeOrder(j, k, k);
  }

  function Least(s: set<string>): (k: string)
    requires s != {}
    ensures IsLeast(k, s)
  {
    LeastExists(s);
    assert forall j, k :: IsLeast(j, s) && IsLeast(k, s) ==> j == k by {
      forall j, k | IsLeast(j, s) && IsLeast(k, s) ensures j == k { LeastUnique(s, j, k); }
    }
    var k :| IsLeast(k, s);
    k
  }

  /** The keys in increasing order. */
  function Sorted(s: set<string>): (r: seq<string>)
    ensures forall k :: k in r <==> k in s
    ensures |r| == |s|
    ensures forall i, j :: 0 <= i < j < |r| ==> r[i] != r[j] && Le(r[i], r[j])
  {
    if s == {} then [] else [Least(s)] + Sorted(s - {Least(s)})
  }

  // ---------------------------------------------------------- the projection

  datatype Outcome = Outcome(value: Option<Json>, left: nat)
  datatype Items = Items(out: seq<Json>, left: nat)
  datatype Fields = Fields(out: map<string, Json>, left: nat)

  function Project(v: Json, depth: nat, left: nat): Outcome
    decreases v, 1, 0
  {
    if depth > MAX_DEPTH || left == 0 then Outcome(None, left)
    else
      match v
      case String(s) =>
        var text := TruncateMultiline(s, Min(MAX_STRING, left));
        Outcome(Some(String(text)), left - Min(|text|, left))
      case Array(items) =>
        var r := ProjectItems(v, 0, [], depth, left);
        Outcome(Some(Array(r.out)), r.left)
      case Object(fields) =>
        var keys := Sorted(fields.Keys);
        var r := ProjectFields(v, keys[..Min(|keys|, MAX_ITEMS)], map[], depth, left);
        Outcome(Some(Object(r.out)), r.left)
      case Other => Outcome(None, left)
      case _ => Outcome(Some(v), left)
  }

  function Extended(out: seq<Json>, o: Outcome): seq<Json> {
    if o.value.Some? then out + [o.value.value] else out
  }

  function ProjectItems(v: Json, i: nat, out: seq<Json>, depth: nat, left: nat): Items
    requires v.Array? && i <= Min(|v.items|, MAX_ITEMS)
    decreases v, 0, |v.items| - i
  {
    if i == Min(|v.items|, MAX_ITEMS) then Items(out, left)
    else
      var o := Project(v.items[i], depth + 1, left);
      if o.left == 0 then Items(Extended(out, o), 0)
      else ProjectItems(v, i + 1, Extended(out, o), depth, o.left)
  }

  function Entered(out: map<string, Json>, key: string, o: Outcome): map<string, Json> {
    if o.value.Some? then out[key := o.value.value] else out
  }

  function ProjectFields(v: Json, keys: seq<string>, out: map<string, Json>, depth: nat, left: nat): Fields
    requires v.Object? && forall k :: k in keys ==> k in v.fields
    decreases v, 0, |keys|
  {
    if keys == [] then Fields(out, left)
    else
      var key := TruncateMultiline(keys[0], MAX_KEY);
      if |key| > left then Fields(out, left)
      else
        var o := Project(v.fields[keys[0]], depth + 1, left - |key|);
        if o.left == 0 then Fields(Entered(out, key, o), 0)
        else ProjectFields(v, keys[1..], Entered(out, key, o), depth, o.left)
  }

  class Budget {
    var left: nat

    constructor (left: nat)
      ensures this.left == left
    {
      this.left := left;
    }
  }

  /** The recursion as written, spending one budget through a reference; its
      two loops are methods of their own. */
  method BoundedCustomValue(v: Json, depth: nat, budget: Budget) returns (r: Option<Json>)
    modifies budget
    ensures Outcome(r, budget.left) == Project(v, depth, old(budget.left))
    decreases v, 1
  {
    hide TruncateMultiline, Sorted, ProjectItems, ProjectFields;
    if depth > MAX_DEPTH || budget.left == 0 { return None; }
    match v
    case String(s) =>
      var limit := Min(MAX_STRING, budget.left);
      var text := TruncateMultiline(s, limit);
      budget.left := budget.left - Min(|text|, budget.left);
      return Some(String(text));
    case Array(items) =>
      var out := BoundedItems(v, depth, budget);
      return Some(Array(out));
    case Object(fields) =>
      var keys := Sorted(fields.Keys);
      var out := BoundedFields(v, keys[..Min(|keys|, MAX_ITEMS)], depth, budget);
      return Some(Object(out));
    case Other => return None;
    case _ => return Some(v);
  }

  method BoundedItems(v: Json, depth: nat, budget: Budget) returns (out: seq<Json>)
    requires v.Array?
    modifies budget
    ensures Items(out, budget.left) == ProjectItems(v, 0, [], depth, old(budget.left))
    decreases v, 0
  {
    hide Project;
    out := [];
    var i := 0;
    while i < Min(|v.items|, MAX_ITEMS)
      invariant i <= Min(|v.items|, MAX_ITEMS)
      invariant ProjectItems(v, i, out, depth, budget.left) == ProjectItems(v, 0, [], depth, old(budget.left))
    {
      var clean := BoundedCustomValue(v.items[i], depth + 1, budget);
      if clean.Some? { out := out + [clean.value]; }
      if budget.left == 0 { return; }
      i := i + 1;
    }
  }

  method BoundedFields(v: Json, keys: seq<string>, depth: nat, budget: Budget) returns (out: map<string, Json>)
    requires v.Object? && forall k :: k in keys ==> k in v.fields
    modifies budget
    ensures Fields(out, budget.left) == ProjectFields(v, keys, map[], depth, old(budget.left))
    decreases v, 0
  {
    hide Project, TruncateMultiline;
    out := map[];
    var i := 0;
    assert keys[0..] == keys;
    while i < |keys|
      invariant i <= |keys|
      invariant ProjectFields(v, keys[i..], out, depth, budget.left)
                == ProjectFields(v, keys, map[], depth, old(budget.left))
    {
      assert keys[i..][1..] == keys[i + 1..];
      var key := TruncateMultiline(keys[i], MAX_KEY);
      if |key| > budget.left { return; }
      budget.left := budget.left - |key|;
      var clean := BoundedCustomValue(v.fields[keys[i]], depth + 1, budget);
      if clean.Some? { out := out[key := clean.value]; }
      if budget.left == 0 { return; }
      i := i + 1;
    }
  }

  method BoundedCustomArguments(raw: map<string, Json>) returns (r: Option<map<string, Json>>)
    ensures r.Some? && Project(Object(raw), 0, MAX_BYTES).value == Some(Object(r.value))
  {
    var budget := new Budget(MAX_BYTES);
    var value := BoundedCustomValue(Object(raw), 0, budget);
    return Some(value.value.fields);
  }

  // ------------------------------------------------------------- byte counts

  ghost function Total(w: map<string, nat>): nat {
    if w == map[] then 0 else
      var k :| k in w;
      w[k] + Total(w - {k})
  }

  /** The key and string bytes of a value. */
  ghost function Bytes(v: Json): nat
    decreases v, 1
  {
    match v
    case String(s) => |s|
    case Array(items) => ItemBytes(v, |items|)
    case Object(fields) => Total(map k | k in fields :: |k| + Bytes(fields[k]))
    case _ => 0
  }

  ghost function ItemBytes(v: Json, n: nat): nat
    requires v.Array? && n <= |v.items|
    decreases v, 0, n
  {
    if n == 0 then 0 else ItemBytes(v, n - 1) + Bytes(v.items[n - 1])
  }

  lemma {:induction false} TotalWithout(w: map<string, nat>, k: string)
    requires k in w
    ensures Total(w) == w[k] + Total(w - {k})
    decreases |w|
  {
    var j :| j in w && Total(w) == w[j] + Total(w - {j});
    if j != k {
      TotalWithout(w - {j}, k);
      TotalWithout(w - {k}, j);
      assert w - {j} - {k} == w - {k} - {j};
    }
  }

  lemma TotalPut(w: map<string, nat>, k: string, n: nat)
    ensures Total(w[k := n]) == Total(w - {k}) + n
    ensures Total(w - {k}) <= Total(w)
  {
    TotalWithout(w[k := n], k);
    assert w[k := n] - {k} == w - {k};
    if k in w { TotalWithout(w, k); } else { assert w - {k} == w; }
  }

  ghost function Weights(fields: map<string, Json>): map<string, nat> {
    map k | k in fields :: |k| + Bytes(fields[k])
  }

  lemma EnterBytes(out: map<string, Json>, key: string, o: Outcome)
    ensures Total(Weights(Entered(out, key, o)))
            <= Total(Weights(out)) + if o.value.Some? then |key| + Bytes(o.value.value) else 0
  {
    hide Bytes, Total;
    if o.value.Some? {
      var w := Weights(out);
      TotalPut(w, key, |key| + Bytes(o.value.value));
      assert Weights(out[key := o.value.value]) == w[key := |key| + Bytes(o.value.value)];
    }
  }

  lemma {:induction false} ItemBytesOnly(v: Json, u: Json, n: nat)
    requires v.Array? && u.Array? && n <= |v.items| && n <= |u.items| && v.items[..n] == u.items[..n]
    ensures ItemBytes(v, n) == ItemBytes(u, n)
  {
    if n > 0 {
      assert v.items[..n][..n - 1] == v.items[..n - 1] && u.items[..n][..n - 1] == u.items[..n - 1];
      assert v.items[..n][n - 1] == v.items[n - 1] && u.items[..n][n - 1] == u.items[n - 1];
      ItemBytesOnly(v, u, n - 1);
    }
  }

  lemma ExtendBytes(out: seq<Json>, o: Outcome)
    ensures Bytes(Array(Extended(out, o))) == Bytes(Array(out)) + if o.value.Some? then Bytes(o.value.value) else 0
  {
    if o.value.Some? {
      var u := Array(out + [o.value.value]);
      assert u.items[..|out|] == out && out[..|out|] == out;
      ItemBytesOnly(u, Array(out), |out|);
    }
  }

  // ------------------------------------------------------------- main bounds

  /** The one overshoot: an ellipsis on the string that exhausts the budget. */
  function Overshoot(left: nat): nat { if left == 0 then |ELLIPSIS| else 0 }

  /** A value costs at least its bytes, except for the final ellipsis. */
  lemma {:induction false} ProjectSpends(v: Json, depth: nat, left: nat)
    ensures var o := Project(v, depth, left);
            && o.left <= left
            && (o.value.Some? ==> left > 0 && Bytes(o.value.value) + o.left <= left + Overshoot(o.left))
    decreases v, 1, 0
  {
    if depth <= MAX_DEPTH && left > 0 {
      match v
      case Array(items) =>
        ItemsSpend(v, 0, [], depth, left);
      case Object(fields) =>
        var keys := Sorted(fields.Keys);
        FieldsSpend(v, keys[..Min(|keys|, MAX_ITEMS)], map[], depth, left);
        assert Weights(map[]) == map[];
      case _ =>
    }
  }

  lemma {:induction false} ItemsSpend(v: Json, i: nat, out: seq<Json>, depth: nat, left: nat)
    requires v.Array? && i <= Min(|v.items|, MAX_ITEMS) && left > 0
    ensures var r := ProjectItems(v, i, out, depth, left);
            && r.left <= left
            && Bytes(Array(r.out)) + r.left <= Bytes(Array(out)) + left + Overshoot(r.left)
    decreases v, 0, |v.items| - i
  {
    hide Project, Bytes, Extended;
    if i < Min(|v.items|, MAX_ITEMS) {
      var o := Project(v.items[i], depth + 1, left);
      ProjectSpends(v.items[i], depth + 1, left);
      ExtendBytes(out, o);
      if o.left > 0 { ItemsSpend(v, i + 1, Extended(out, o), depth, o.left); }
    }
  }

  lemma {:induction false} FieldsSpend(v: Json, keys: seq<string>, out: map<string, Json>, depth: nat, left: nat)
    requires v.Object? && (forall k :: k in keys ==> k in v.fields) && left > 0
    ensures var r := ProjectFields(v, keys, out, depth, left);
            && r.left <= left
            && Total(Weights(r.out)) + r.left <= Total(Weights(out)) + left + Overshoot(r.left)
    decreases v, 0, |keys|
  {
    hide Project, Bytes, TruncateMultiline, Total, Weights, Entered;
    if keys != [] {
      var key := TruncateMultiline(keys[0], MAX_KEY);
      if |key| <= left {
        var o := Project(v.fields[keys[0]], depth + 1, left - |key|);
        ProjectSpends(v.fields[keys[0]], depth + 1, left - |key|);
        EnterBytes(out, key, o);
        if o.left > 0 { FieldsSpend(v, keys[1..], Entered(out, key, o), depth, o.left); }
      }
    }
  }

  /** The projection of any tree holds at most 16384 bytes of keys and strings,
      plus one ellipsis. */
  lemma ProjectionIsBounded(raw: map<string, Json>)
    ensures Project(Object(raw), 0, MAX_BYTES).value.Some?
    ensures Bytes(Project(Object(raw), 0, MAX_BYTES).value.value) <= MAX_BYTES + 3
  {
    ProjectSpends(Object(raw), 0, MAX_BYTES);
  }

  // ------------------------------------------------------------------- shape

  /** Nests at most `levels` containers, each of at most 40 entries, with
      strings and keys cut to size. */
  ghost predicate Shaped(v: Json, levels: nat)
    decreases v
  {
    match v
    case String(s) => |s| <= MAX_STRING + |ELLIPSIS|
    case Array(items) =>
      levels > 0 && |items| <= MAX_ITEMS && forall i :: 0 <= i < |items| ==> Shaped(items[i], levels - 1)
    case Object(fields) =>
      && levels > 0 && |fields| <= MAX_ITEMS
      && forall k :: k in fields ==> |k| <= MAX_KEY + |ELLIPSIS| && Shaped(fields[k], levels - 1)
    case Other => false
    case _ => true
  }

  /** Every projected tree nests at most five containers deep and is small in
      each of them. */
  lemma {:induction false} ProjectionIsShaped(v: Json, depth: nat, left: nat)
    requires depth <= MAX_DEPTH + 1
    ensures var o := Project(v, depth, left);
            o.value.Some? ==> Shaped(o.value.value, MAX_DEPTH + 1 - depth)
    decreases v, 1, 0
  {
    if depth <= MAX_DEPTH && left > 0 {
      match v
      case Array(items) => ItemsShaped(v, 0, [], depth, left);
      case Object(fields) =>
        var keys := Sorted(fields.Keys);
        FieldsShaped(v, keys[..Min(|keys|, MAX_ITEMS)], map[], depth, left);
      case _ =>
    }
  }

  lemma {:induction false} ItemsShaped(v: Json, i: nat, out: seq<Json>, depth: nat, left: nat)
    requires v.Array? && i <= Min(|v.items|, MAX_ITEMS) && |out| <= i && depth <= MAX_DEPTH
    requires forall j :: 0 <= j < |out| ==> Shaped(out[j], MAX_DEPTH - depth)
    ensures var r := ProjectItems(v, i, out, depth, left).out;
            |r| <= MAX_ITEMS && forall j :: 0 <= j < |r| ==> Shaped(r[j], MAX_DEPTH - depth)
    decreases v, 0, |v.items| - i
  {
    if i < Min(|v.items|, MAX_ITEMS) {
      hide Project, Shaped;
      var o := Project(v.items[i], depth + 1, left);
      ProjectionIsShaped(v.items[i], depth + 1, left);
      if o.left > 0 { ItemsShaped(v, i + 1, Extended(out, o), depth, o.left); }
    }
  }

  ghost predicate FieldsSmall(fields: map<string, Json>, levels: nat) {
    forall k :: k in fields ==> |k| <= MAX_KEY + |ELLIPSIS| && Shaped(fields[k], levels)
  }

  lemma {:induction false} FieldsShaped(v: Json, keys: seq<string>, out: map<string, Json>, depth: nat, left: nat)
    requires v.Object? && (forall k :: k in keys ==> k in v.fields) && |out| + |keys| <= MAX_ITEMS && depth <= MAX_DEPTH
    requires FieldsSmall(out, MAX_DEPTH - depth)
    ensures var r := ProjectFields(v, keys, out, depth, left).out;
            |r| <= MAX_ITEMS && FieldsSmall(r, MAX_DEPTH - depth)
    decreases v, 0, |keys|
  {
    hide Project, Shaped, TruncateMultiline, Entered, FieldsSmall;
    if keys != [] {
      var key := TruncateMultiline(keys[0], MAX_KEY);
      KeyCut(keys[0]);
      if |key| <= left {
        var o := Project(v.fields[keys[0]], depth + 1, left - |key|);
        ProjectionIsShaped(v.fields[keys[0]], depth + 1, left - |key|);
        PutCount(out, key, o);
        PutSmall(out, key, o, MAX_DEPTH - depth);
        if o.left > 0 { FieldsShaped(v, keys[1..], Entered(out, key, o), depth, o.left); }
      }
    }
  }

  lemma PutSmall(out: map<string, Json>, key: string, o: Outcome, levels: nat)
    requires FieldsSmall(out, levels) && |key| <= MAX_KEY + |ELLIPSIS|
    requires o.value.Some? ==> Shaped(o.value.value, levels)
    ensures FieldsSmall(Entered(out, key, o), levels)
  {
    hide Shaped;
  }

  lemma KeyCut(key: string)
    ensures |TruncateMultiline(key, MAX_KEY)| <= MAX_KEY + |ELLIPSIS|
  {
  }

  lemma PutCount(out: map<string, Json>, key: string, o: Outcome)
    ensures |Entered(out, key, o)| <= |out| + 1
  {
    if o.value.Some? { assert out[key := o.value.value].Keys == out.Keys + {key}; }
  }

  // ---------------------------------------------------------------- identity

  /** Inside every limit except the total. */
  ghost predicate Within(v: Json, depth: nat)
    decreases v
  {
    && depth <= MAX_DEPTH
    && match v
       case String(s) => |s| <= MAX_STRING
       case Array(items) => |items| <= MAX_ITEMS && forall i :: 0 <= i < |items| ==> Within(items[i], depth + 1)
       case Object(fields) =>
         |fields| <= MAX_ITEMS && forall k :: k in fields ==> |k| <= MAX_KEY && Within(fields[k], depth + 1)
       case Other => false
       case _ => true
  }

  /** A tree inside the limits comes back unchanged and is charged exactly its
      bytes. */
  lemma {:induction false} SmallTreesUnchanged(v: Json, depth: nat, left: nat)
    requires Within(v, depth) && Bytes(v) < left
    ensures Project(v, depth, left) == Outcome(Some(v), left - Bytes(v))
    decreases v, 1, 0
  {
    hide ProjectItems, ProjectFields, Total, ItemBytes, KeysBytes, Sorted;
    match v
    case Array(items) =>
      NoItemBytes(v);
      ItemsUnchanged(v, 0, depth, left);
      assert items[..0] == [] && items[..|items|] == items;
    case Object(fields) =>
      var keys := Sorted(fields.Keys);
      assert keys[..|keys|] == keys && |keys| == |fields.Keys| == |fields|;
      AllKeys(fields, keys);
      FieldsUnchanged(v, keys, map[], depth, left);
    case _ =>
  }

  lemma {:induction false} ItemsUnchanged(v: Json, i: nat, depth: nat, left: nat)
    requires v.Array? && Within(v, depth) && i <= |v.items| && Bytes(v) < left + ItemBytes(v, i)
    ensures ProjectItems(v, i, v.items[..i], depth, left) == Items(v.items, left + ItemBytes(v, i) - Bytes(v))
    decreases v, 0, |v.items| - i
  {
    hide Project, Within, Bytes;
    ArrayBytes(v);
    FewItems(v, depth);
    if i == |v.items| {
      assert v.items[..i] == v.items;
    } else {
      ItemWithin(v, depth, i);
      ItemBytesGrow(v, i + 1);
      SmallTreesUnchanged(v.items[i], depth + 1, left);
      assert v.items[..i] + [v.items[i]] == v.items[..i + 1];
      ItemsUnchanged(v, i + 1, depth, left - Bytes(v.items[i]));
    }
  }

  lemma NoItemBytes(v: Json)
    requires v.Array?
    ensures ItemBytes(v, 0) == 0
  {
  }

  lemma ArrayBytes(v: Json)
    requires v.Array?
    ensures Bytes(v) == ItemBytes(v, |v.items|)
  {
  }

  lemma ItemWithin(v: Json, depth: nat, i: nat)
    requires v.Array? && Within(v, depth) && i < |v.items|
    ensures Within(v.items[i], depth + 1)
  {
  }

  lemma FewItems(v: Json, depth: nat)
    requires v.Array? && Within(v, depth)
    ensures |v.items| <= MAX_ITEMS
  {
  }

  lemma {:induction false} ItemBytesGrow(v: Json, n: nat)
    requires v.Array? && n <= |v.items|
    ensures ItemBytes(v, n) <= ItemBytes(v, |v.items|)
    decreases |v.items| - n
  {
    if n < |v.items| { ItemBytesGrow(v, n + 1); }
  }

  /** The bytes of the fields under the given keys. */
  ghost function KeysBytes(fields: map<string, Json>, keys: seq<string>): nat
    requires forall k :: k in keys ==> k in fields
  {
    if keys == [] then 0 else |keys[0]| + Bytes(fields[keys[0]]) + KeysBytes(fields, keys[1..])
  }

  lemma {:induction false} KeysTotal(fields: map<string, Json>, w: map<string, nat>, keys: seq<string>)
    requires forall k :: k in keys ==> k in fields
    requires forall i, j :: 0 <= i < j < |keys| ==> keys[i] != keys[j]
    requires forall k :: k in w <==> k in keys
    requires forall k :: k in w ==> w[k] == |k| + Bytes(fields[k])
    ensures KeysBytes(fields, keys) == Total(w)
    decreases |keys|
  {
    if keys == [] {
      assert w == map[];
    } else {
      TotalWithout(w, keys[0]);
      KeysTotal(fields, w - {keys[0]}, keys[1..]);
    }
  }

  lemma AllKeys(fields: map<string, Json>, keys: seq<string>)
    requires forall k :: k in keys <==> k in fields
    requires forall i, j :: 0 <= i < j < |keys| ==> keys[i] != keys[j]
    ensures KeysBytes(fields, keys) == Bytes(Object(fields))
  {
    KeysTotal(fields, map k | k in fields :: |k| + Bytes(fields[k]), keys);
  }

  lemma {:induction false} FieldsUnchanged(v: Json, keys: seq<string>, out: map<string, Json>, depth: nat, left: nat)
    requires v.Object? && Within(v, depth) && (forall k :: k in keys ==> k in v.fields)
    requires forall k :: k in v.fields ==> k in keys || k in out
    requires forall k :: k in out ==> k in v.fields && out[k] == v.fields[k]
    requires KeysBytes(v.fields, keys) < left
    ensures ProjectFields(v, keys, out, depth, left) == Fields(v.fields, left - KeysBytes(v.fields, keys))
    decreases v, 0, |keys|
  {
    hide Project, Bytes, TruncateMultiline, Within, Entered;
    if keys == [] {
      assert out == v.fields;
    } else {
      var key := keys[0];
      FieldWithin(v, depth, key);
      KeyKept(key);
      SmallTreesUnchanged(v.fields[key], depth + 1, left - |key|);
      var o := Project(v.fields[key], depth + 1, left - |key|);
      EnteredOne(out, key, o);
      assert keys == [key] + keys[1..];
      FieldsUnchanged(v, keys[1..], Entered(out, key, o), depth, o.left);
    }
  }

  lemma FieldWithin(v: Json, depth: nat, key: string)
    requires v.Object? && Within(v, depth) && key in v.fields
    ensures |key| <= MAX_KEY && Within(v.fields[key], depth + 1)
  {
  }

  lemma KeyKept(key: string)
    ensures |key| <= MAX_KEY ==> TruncateMultiline(key, MAX_KEY) == key
  {
  }

  lemma EnteredOne(out: map<string, Json>, key: string, o: Outcome)
    requires o.value.Some?
    ensures Entered(out, key, o) == out[key := o.value.value]
  {
  }

  /** Within the limits and short of the budget, the whole projection is the
      identity. */
  lemma SmallArgumentsUnchanged(raw: map<string, Json>)
    requires Within(Object(raw), 0) && Bytes(Object(raw)) < MAX_BYTES
    ensures Project(Object(raw), 0, MAX_BYTES).value == Some(Object(raw))
  {
    SmallTreesUnchanged(Object(raw), 0, MAX_BYTES);
  }

  // ------------------------------------------------- with budget to spare

  /** A text within a limit, or its front and an ellipsis. */
  function Shown(s: string, limit: nat): string { if |s| <= limit then s else s[..limit] + ELLIPSIS }

  /** The projection without any budget: texts and containers are cut to size,
      what lies too deep or is of no JSON type is left out. */
  function Ideal(v: Json, depth: nat): Option<Json>
    decreases v, 1, 0
  {
    if depth > MAX_DEPTH then None
    else
      match v
      case String(s) => Some(String(Shown(s, MAX_STRING)))
      case Array(items) => Some(Array(IdealItems(v, Min(|items|, MAX_ITEMS), depth)))
      case Object(fields) => Some(Object(IdealFields(v, FirstKeys(v), depth)))
      case Other => None
      case _ => Some(v)
  }

  function FirstKeys(v: Json): (keys: seq<string>)
    requires v.Object?
    ensures forall k :: k in keys ==> k in v.fields
  {
    var keys := Sorted(v.fields.Keys);
    keys[..Min(|keys|, MAX_ITEMS)]
  }

  function IdealItems(v: Json, n: nat, depth: nat): seq<Json>
    requires v.Array? && n <= |v.items|
    decreases v, 0, n
  {
    if n == 0 then []
    else IdealItems(v, n - 1, depth)
         + match Ideal(v.items[n - 1], depth + 1) case Some(w) => [w] case None => []
  }

  function IdealFields(v: Json, keys: seq<string>, depth: nat): map<string, Json>
    requires v.Object? && forall k :: k in keys ==> k in v.fields
    decreases v, 0, |keys|
  {
    if keys == [] then map[]
    else
      var k := keys[|keys| - 1];
      var before := IdealFields(v, keys[..|keys| - 1], depth);
      match Ideal(v.fields[k], depth + 1) case Some(w) => before[Shown(k, MAX_KEY) := w] case None => before
  }

  /** What the projection is charged for a value. */
  function Cost(v: Json, depth: nat): nat
    decreases v, 1, 0
  {
    if depth > MAX_DEPTH then 0
    else
      match v
      case String(s) => |Shown(s, MAX_STRING)|
      case Array(items) => ItemsCost(v, Min(|items|, MAX_ITEMS), depth)
      case Object(fields) => FieldsCost(v, FirstKeys(v), depth)
      case _ => 0
  }

  function ItemsCost(v: Json, n: nat, depth: nat): nat
    requires v.Array? && n <= |v.items|
    decreases v, 0, n
  {
    if n == 0 then 0 else ItemsCost(v, n - 1, depth) + Cost(v.items[n - 1], depth + 1)
  }

  function FieldsCost(v: Json, keys: seq<string>, depth: nat): nat
    requires v.Object? && forall k :: k in keys ==> k in v.fields
    decreases v, 0, |keys|
  {
    if keys == [] then 0
    else
      var k := keys[|keys| - 1];
      FieldsCost(v, keys[..|keys| - 1], depth) + |Shown(k, MAX_KEY)| + Cost(v.fields[k], depth + 1)
  }

  lemma {:induction false} ItemsCostGrows(v: Json, i: nat, n: nat, depth: nat)
    requires v.Array? && i <= n <= |v.items|
    ensures ItemsCost(v, i, depth) <= ItemsCost(v, n, depth)
  {
    if i < n { ItemsCostGrows(v, i, n - 1, depth); }
  }

  lemma {:induction false} FieldsCostGrows(v: Json, keys: seq<string>, i: nat, depth: nat)
    requires v.Object? && (forall k :: k in keys ==> k in v.fields) && i <= |keys|
    ensures FieldsCost(v, keys[..i], depth) <= FieldsCost(v, keys, depth)
    decreases |keys|
  {
    if i < |keys| {
      assert keys[..|keys| - 1][..i] == keys[..i];
      FieldsCostGrows(v, keys[..|keys| - 1], i, depth);
    } else {
      assert keys[..i] == keys;
    }
  }

  /** With more budget than it costs, a value's projection is the ideal one, and
      it is charged exactly its cost. */
  lemma {:induction false} RoomyIsIdeal(v: Json, depth: nat, left: nat)
    requires Cost(v, depth) < left
    ensures Project(v, depth, left) == Outcome(Ideal(v, depth), left - Cost(v, depth))
    decreases v, 1, 0
  {
    hide ProjectItems, ProjectFields, IdealItems, IdealFields, ItemsCost, FieldsCost, Sorted;
    if depth <= MAX_DEPTH {
      match v
      case Array(items) =>
        NothingYet(v, depth);
        RoomyItems(v, 0, depth, left);
      case Object(fields) =>
        var keys := FirstKeys(v);
        NoFieldsYet(v, depth);
        assert keys[..0] == [] && keys[0..] == keys;
        RoomyFields(v, keys, 0, depth, left);
      case _ =>
    }
  }

  lemma NothingYet(v: Json, depth: nat)
    requires v.Array?
    ensures IdealItems(v, 0, depth) == [] && ItemsCost(v, 0, depth) == 0
  {
  }

  lemma NoFieldsYet(v: Json, depth: nat)
    requires v.Object?
    ensures IdealFields(v, [], depth) == map[] && FieldsCost(v, [], depth) == 0
  {
  }

  lemma {:induction false} RoomyItems(v: Json, i: nat, depth: nat, left: nat)
    requires v.Array? && i <= Min(|v.items|, MAX_ITEMS)
    requires ItemsCost(v, Min(|v.items|, MAX_ITEMS), depth) < left + ItemsCost(v, i, depth)
    ensures var n := Min(|v.items|, MAX_ITEMS);
            ProjectItems(v, i, IdealItems(v, i, depth), depth, left)
            == Items(IdealItems(v, n, depth), left + ItemsCost(v, i, depth) - ItemsCost(v, n, depth))
    decreases v, 0, |v.items| - i
  {
    hide Project, Ideal, Cost;
    var n := Min(|v.items|, MAX_ITEMS);
    if i < n {
      ItemsCostGrows(v, i + 1, n, depth);
      RoomyIsIdeal(v.items[i], depth + 1, left);
      var o := Project(v.items[i], depth + 1, left);
      ItemExtends(v, i, depth, o);
      RoomyItems(v, i + 1, depth, left - Cost(v.items[i], depth + 1));
    }
  }

  lemma ItemExtends(v: Json, i: nat, depth: nat, o: Outcome)
    requires v.Array? && i < |v.items| && o.value == Ideal(v.items[i], depth + 1)
    ensures Extended(IdealItems(v, i, depth), o) == IdealItems(v, i + 1, depth)
  {
    hide Ideal;
    assert IdealItems(v, i, depth) + [] == IdealItems(v, i, depth);
  }

  lemma {:induction false} RoomyFields(v: Json, keys: seq<string>, i: nat, depth: nat, left: nat)
    requires v.Object? && (forall k :: k in keys ==> k in v.fields) && i <= |keys|
    requires FieldsCost(v, keys, depth) < left + FieldsCost(v, keys[..i], depth)
    ensures ProjectFields(v, keys[i..], IdealFields(v, keys[..i], depth), depth, left)
            == Fields(IdealFields(v, keys, depth), left + FieldsCost(v, keys[..i], depth) - FieldsCost(v, keys, depth))
    decreases v, 0, |keys| - i
  {
    hide Project, Ideal, Cost, Sorted, TruncateMultiline, Shown;
    if i == |keys| {
      assert keys[..i] == keys && keys[i..] == [];
    } else {
      var key := keys[i];
      assert keys[..i + 1][..i] == keys[..i] && keys[i..][1..] == keys[i + 1..] && keys[i..][0] == key;
      KeyShown(key);
      FieldsCostGrows(v, keys, i + 1, depth);
      RoomyIsIdeal(v.fields[key], depth + 1, left - |Shown(key, MAX_KEY)|);
      RoomyFields(v, keys, i + 1, depth, left - |Shown(key, MAX_KEY)| - Cost(v.fields[key], depth + 1));
    }
  }

  lemma KeyShown(key: string)
    ensures TruncateMultiline(key, MAX_KEY) == Shown(key, MAX_KEY)
  {
  }

  // ------------------------------------------------------ whatever the budget

  /** `n` different places in order, out of `m`. */
  ghost predicate Places(places: seq<nat>, m: nat) {
    && (forall i :: 0 <= i < |places| ==> places[i] < m)
    && (forall i, j :: 0 <= i < j < |places| ==> places[i] < places[j])
  }

  ghost predicate CutText(s: string, t: string) {
    t == s || exists k :: 0 <= k < |s| && t == s[..k] + ELLIPSIS
  }

  /** `w` is `v` with texts and keys cut at the end and entries left out: nothing
      is invented, moved or swapped. */
  ghost predicate CutOf(v: Json, w: Json)
    decreases v
  {
    match v
    case String(s) => w.String? && CutText(s, w.s)
    case Array(items) =>
      w.Array? && exists places: seq<nat> :: Places(places, |items|) && |places| == |w.items|
                    && forall i :: 0 <= i < |places| ==> CutOf(items[places[i]], w.items[i])
    case Object(fields) =>
      w.Object? && forall k :: k in w.fields ==>
                     exists j :: j in fields && CutText(j, k) && CutOf(fields[j], w.fields[k])
    case Other => false
    case _ => w == v
  }

  ghost predicate CutItems(items: seq<Json>, out: seq<Json>, places: seq<nat>) {
    && Places(places, |items|) && |places| == |out|
    && forall i :: 0 <= i < |places| ==> CutOf(items[places[i]], out[i])
  }

  ghost predicate CutFields(fields: map<string, Json>, out: map<string, Json>) {
    forall k :: k in out ==> exists j :: j in fields && CutText(j, k) && CutOf(fields[j], out[k])
  }

  lemma TruncateCuts(s: string, limit: nat)
    ensures CutText(s, TruncateMultiline(s, limit))
  {
  }

  /** Whatever the budget leaves of a value is a cut of it. */
  lemma {:induction false} ProjectionIsACut(v: Json, depth: nat, left: nat)
    ensures var o := Project(v, depth, left); o.value.Some? ==> CutOf(v, o.value.value)
    decreases v, 1, 0
  {
    if depth <= MAX_DEPTH && left > 0 {
      match v
      case String(s) => TruncateCuts(s, Min(MAX_STRING, left));
      case Array(items) => var places := ItemsAreCut(v, 0, [], [], depth, left);
      case Object(fields) =>
        var keys := Sorted(fields.Keys);
        FieldsAreCut(v, keys[..Min(|keys|, MAX_ITEMS)], map[], depth, left);
      case _ =>
    }
  }

  lemma {:induction false} ItemsAreCut(v: Json, i: nat, out: seq<Json>, before: seq<nat>, depth: nat, left: nat)
    returns (places: seq<nat>)
    requires v.Array? && i <= Min(|v.items|, MAX_ITEMS) && CutItems(v.items, out, before)
    requires forall j :: 0 <= j < |before| ==> before[j] < i
    ensures CutItems(v.items, ProjectItems(v, i, out, depth, left).out, places)
    decreases v, 0, |v.items| - i
  {
    hide Project, CutOf;
    places := before;
    if i < Min(|v.items|, MAX_ITEMS) {
      var o := Project(v.items[i], depth + 1, left);
      ProjectionIsACut(v.items[i], depth + 1, left);
      if o.value.Some? { places := before + [i]; }
      if o.left > 0 { places := ItemsAreCut(v, i + 1, Extended(out, o), places, depth, o.left); }
    }
  }

  lemma {:induction false} FieldsAreCut(v: Json, keys: seq<string>, out: map<string, Json>, depth: nat, left: nat)
    requires v.Object? && (forall k :: k in keys ==> k in v.fields) && CutFields(v.fields, out)
    ensures CutFields(v.fields, ProjectFields(v, keys, out, depth, left).out)
    decreases v, 0, |keys|
  {
    hide Project, CutOf, TruncateMultiline, CutFields, Entered;
    if keys != [] {
      var key := TruncateMultiline(keys[0], MAX_KEY);
      if |key| <= left {
        var o := Project(v.fields[keys[0]], depth + 1, left - |key|);
        ProjectionIsACut(v.fields[keys[0]], depth + 1, left - |key|);
        TruncateCuts(keys[0], MAX_KEY);
        EnteredIsCut(v.fields, out, keys[0], key, o);
        if o.left > 0 { FieldsAreCut(v, keys[1..], Entered(out, key, o), depth, o.left); }
      }
    }
  }

  lemma EnteredIsCut(fields: map<string, Json>, out: map<string, Json>, k: string, key: string, o: Outcome)
    requires CutFields(fields, out) && k in fields && CutText(k, key)
    requires o.value.Some? ==> CutOf(fields[k], o.value.value)
    ensures CutFields(fields, Entered(out, key, o))
  {
    hide CutOf, CutText;
  }

  /** A text is cut only where it or the budget ends, and charged what is kept. */
  lemma TextIsCutAtTheLimit(s: string, depth: nat, left: nat)
    requires depth <= MAX_DEPTH && left > 0
    ensures var o := Project(String(s), depth, left);
            var room := if left < MAX_STRING then left else MAX_STRING;
            && o.value == Some(String(if |s| <= room then s else s[..room] + ELLIPSIS))
            && o.left == if |o.value.value.s| <= left then left - |o.value.value.s| else 0
  {
  }
}
