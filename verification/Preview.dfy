/** Bounded tool previews: the decimal writer and the clamp. */
module Preview {
  import opened Protocol

  const PREVIEW_LIMIT := 4096
  const MARKER_HEAD: string := "\n" + ELLIPSIS + " output truncated ("
  const MARKER_TAIL: string := " more bytes)"
  const MAX_INT64 := 0x7FFF_FFFF_FFFF_FFFF

  function Digit(d: nat): (c: char)
    requires d < 10
  {
    '0' + d as char
  }

  /** The decimal numeral of `n`, without leading zeros. */
  function Decimal(n: nat): (s: string)
    ensures |s| > 0
  {
    if n < 10 then [Digit(n)] else Decimal(n / 10) + [Digit(n % 10)]
  }

  /** The number a numeral denotes. */
  function Value(s: string): int {
    if s == [] then 0 else 10 * Value(s[..|s| - 1]) + (s[|s| - 1] as int - '0' as int)
  }

  lemma {:induction false} ValueOfDecimal(n: nat)
    ensures Value(Decimal(n)) == n
    ensures n > 0 ==> Decimal(n)[0] != '0'
    ensures forall i :: 0 <= i < |Decimal(n)| ==> '0' <= Decimal(n)[i] <= '9'
  {
    var s := Decimal(n);
    if n < 10 {
      assert s[..|s| - 1] == [];
    } else {
      ValueOfDecimal(n / 10);
      assert s[..|s| - 1] == Decimal(n / 10);
    }
  }

  lemma DecimalInjective(a: nat, b: nat)
    requires Decimal(a) == Decimal(b)
    ensures a == b
  {
    ValueOfDecimal(a);
    ValueOfDecimal(b);
  }

  function Pow10(k: nat): (p: nat)
    ensures p > 0
  {
    if k == 0 then 1 else 10 * Pow10(k - 1)
  }

  lemma {:induction false} DecimalLength(n: nat, k: nat)
    requires 0 < k && n < Pow10(k)
    ensures |Decimal(n)| <= k
  {
    if n >= 10 {
      assert Pow10(1) == 10;
      assert n / 10 < Pow10(k - 1);
      DecimalLength(n / 10, k - 1);
    }
  }

  lemma Int64HasAtMost20Digits(n: nat)
    requires n <= MAX_INT64
    ensures |Decimal(n)| <= 20
  {
    assert Pow10(20) == 100_000_000_000_000_000_000 by {
      assert Pow10(5) == 100_000;
      assert Pow10(10) == 10_000_000_000;
      assert Pow10(15) == 1_000_000_000_000_000;
    }
    DecimalLength(n, 20);
  }

  /** What the decimal writer returns: a negative number writes nothing. */
  function Itoa(n: int): string {
    if n < 0 then "" else Decimal(n)
  }

  /** The writer fills a 20-byte buffer from its end. Every index it uses lies
      inside the buffer for every 64-bit number. */
  method WriteDecimal(n: int) returns (s: string)
    requires n <= MAX_INT64
    ensures s == Itoa(n)
    ensures n < 0 ==> s == ""
    ensures n >= 0 ==> s != "" && Value(s) == n && (n > 0 ==> s[0] != '0')
  {
    if n >= 0 { ValueOfDecimal(n); }
    if n == 0 {
      return "0";
    }
    var b := new char[20](_ => '\0');
    var i := b.Length;
    var m := n;
    if n > 0 { Int64HasAtMost20Digits(n); }
    while m > 0
      invariant 0 <= i <= 20 && b.Length == 20
      invariant n < 0 ==> i == 20 && m == n
      invariant n > 0 ==> m >= 0
      invariant m > 0 ==> |Decimal(m)| <= i && Decimal(n) == Decimal(m) + b[i..]
      invariant n > 0 && m == 0 ==> Decimal(n) == b[i..]
    {
      ghost var tail := b[i..];
      i := i - 1;
      b[i] := Digit(m % 10);
      assert b[i..] == [Digit(m % 10)] + tail;
      m := m / 10;
    }
    return b[i..];
  }

  function Marker(omitted: int): string {
    MARKER_HEAD + Itoa(omitted) + MARKER_TAIL
  }

  /** The preview sent to the browser, and whether it was cut. */
  function ClampPreview(s: string): (string, bool) {
    if |s| <= PREVIEW_LIMIT then (s, false)
    else (s[..PREVIEW_LIMIT] + Marker(|s| - PREVIEW_LIMIT), true)
  }

  /** The longest marker: its fixed text and a 20-digit count. */
  const MARKER_LIMIT := |MARKER_HEAD| + 20 + |MARKER_TAIL|

  lemma ClampBounds(s: string)
    requires |s| <= MAX_INT64
    ensures |s| > PREVIEW_LIMIT ==>
              PREVIEW_LIMIT < |ClampPreview(s).0| <= PREVIEW_LIMIT + MARKER_LIMIT
              && ClampPreview(s).0[..PREVIEW_LIMIT] == s[..PREVIEW_LIMIT]
  {
    if |s| > PREVIEW_LIMIT {
      Int64HasAtMost20Digits(|s| - PREVIEW_LIMIT);
    }
  }

  /** A short text is shown whole. A long one is cut, and the numeral in its
      marker is the number of bytes left out. */
  lemma ClampCounts(s: string)
    ensures |s| <= PREVIEW_LIMIT ==> ClampPreview(s) == (s, false)
    ensures |s| > PREVIEW_LIMIT ==>
              && ClampPreview(s).1
              && exists digits :: Value(digits) == |s| - PREVIEW_LIMIT
                   && ClampPreview(s).0 == s[..PREVIEW_LIMIT] + MARKER_HEAD + digits + MARKER_TAIL
  {
    if |s| > PREVIEW_LIMIT {
      var digits := Decimal(|s| - PREVIEW_LIMIT);
      ValueOfDecimal(|s| - PREVIEW_LIMIT);
      assert ClampPreview(s).0 == s[..PREVIEW_LIMIT] + MARKER_HEAD + digits + MARKER_TAIL;
    }
  }
}
