/** Small notions that several components share. */
module Common {

  function Min(a: nat, b: nat): nat { if a <= b then a else b }

  lemma SubsetCount<T>(a: set<T>, b: set<T>)
    requires a <= b
    ensures |a| <= |b|
  {
    assert b == a + (b - a);
  }

  ghost predicate NoRepeats<T>(s: seq<T>) {
    forall i, j :: 0 <= i < j < |s| ==> s[i] != s[j]
  }

  /** A list without one of its strings, the rest in order. */
  function Without(s: seq<string>, p: string): (r: seq<string>)
    ensures |r| <= |s|
    ensures forall x :: x in r <==> x in s && x != p
  {
    if s == [] then []
    else
      assert s == s[..|s| - 1] + [s[|s| - 1]];
      Without(s[..|s| - 1], p) + if s[|s| - 1] == p then [] else [s[|s| - 1]]
  }

  lemma {:induction false} WithoutAppend(a: seq<string>, b: seq<string>, p: string)
    ensures Without(a + b, p) == Without(a, p) + Without(b, p)
    decreases |b|
  {
    if b == [] {
      assert a + b == a;
    } else {
      assert (a + b)[..|a + b| - 1] == a + b[..|b| - 1];
      WithoutAppend(a, b[..|b| - 1], p);
    }
  }

  lemma {:induction false} WithoutAbsent(s: seq<string>, p: string)
    requires p !in s
    ensures Without(s, p) == s
  {
    if s != [] {
      assert s == s[..|s| - 1] + [s[|s| - 1]];
      WithoutAbsent(s[..|s| - 1], p);
    }
  }

  predicate Blank(c: char) { c == ' ' || '\t' <= c <= '\r' }

  function TrimSpace(s: string): (t: string)
    ensures |t| <= |s|
    decreases |s|
  {
    if s != [] && Blank(s[0]) then TrimSpace(s[1..])
    else if s != [] && Blank(s[|s| - 1]) then TrimSpace(s[..|s| - 1])
    else s
  }

  predicate AllBlank(s: string) { forall i :: 0 <= i < |s| ==> Blank(s[i]) }

  ghost predicate CutFrom(s: string, a: string, t: string, b: string) {
    s == a + t + b && AllBlank(a) && AllBlank(b)
  }

  lemma CutFront(s: string, a: string, t: string, b: string)
    requires s != [] && Blank(s[0]) && CutFrom(s[1..], a, t, b)
    ensures CutFrom(s, [s[0]] + a, t, b)
  {
    assert s == [s[0]] + s[1..];
    assert [s[0]] + (a + t + b) == ([s[0]] + a) + t + b;
  }

  lemma CutBack(s: string, a: string, t: string, b: string)
    requires s != [] && Blank(s[|s| - 1]) && CutFrom(s[..|s| - 1], a, t, b)
    ensures CutFrom(s, a, t, b + [s[|s| - 1]])
  {
    assert s == s[..|s| - 1] + [s[|s| - 1]];
    assert (a + t + b) + [s[|s| - 1]] == a + t + (b + [s[|s| - 1]]);
  }

  /** Only blanks are cut off, and all of them at either end. */
  lemma {:induction false} TrimSpaceCuts(s: string) returns (a: string, b: string)
    ensures CutFrom(s, a, TrimSpace(s), b)
    ensures var t := TrimSpace(s); t != [] ==> !Blank(t[0]) && !Blank(t[|t| - 1])
    decreases |s|
  {
    hide AllBlank, CutFrom, Blank;
    if s != [] && Blank(s[0]) {
      a, b := TrimSpaceCuts(s[1..]);
      CutFront(s, a, TrimSpace(s), b);
      a := [s[0]] + a;
    } else if s != [] && Blank(s[|s| - 1]) {
      a, b := TrimSpaceCuts(s[..|s| - 1]);
      CutBack(s, a, TrimSpace(s), b);
      b := b + [s[|s| - 1]];
    } else {
      a, b := "", "";
      NothingCut(s);
    }
  }

  lemma NothingCut(s: string)
    ensures CutFrom(s, "", s, "")
  {
    assert s == "" + s + "";
  }
}
