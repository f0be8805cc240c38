/** String and number helpers that stand for the Python built-ins the rules use:
    `str.lower`, the `in` substring test, `str.endswith`, slicing `[:n]`,
    `str(int)`, `round(x, n)` and the fixed-point format `{x:.nf}`. */
module Text {

  /** Python's `str.lower()` on one character. Only 'A'..'Z' and KELVIN SIGN
      (U+212A) lower-case to an ASCII letter; every other character is kept,
      which does not change whether an all-ASCII word occurs in the result. */
  function Lower(c: char): (r: char)
    ensures 'A' <= c <= 'Z' ==> r as int == c as int + 32
    ensures r != c ==> 'A' <= c <= 'Z' || c == '\U{212A}'
  {
    if 'A' <= c <= 'Z' then (c as int + 32) as char
    else if c == '\U{212A}' then 'k'
    else c
  }

  function LowerString(s: string): (r: string)
    ensures |r| == |s|
    ensures forall i :: 0 <= i < |s| ==> r[i] == Lower(s[i])
  {
    seq(|s|, i requires 0 <= i < |s| => Lower(s[i]))
  }

  /** `sub` occurs in `s` starting at index `i`. */
  ghost predicate OccursAt(sub: string, s: string, i: int) {
    0 <= i && i + |sub| <= |s| && s[i..i + |sub|] == sub
  }

  /** Python's `sub in s` for strings. */
  function Contains(s: string, sub: string): (r: bool)
    ensures r <==> exists i :: OccursAt(sub, s, i)
    decreases |s|
  {
    if |sub| > |s| then false
    else if s[..|sub|] == sub then assert OccursAt(sub, s, 0); true
    else ContainsTail(s, sub); Contains(s[1..], sub)
  }

  /** An occurrence that is not at the front is an occurrence in the tail. */
  lemma ContainsTail(s: string, sub: string)
    requires |sub| <= |s| && s[..|sub|] != sub
    ensures |s| > 0
    ensures (exists i :: OccursAt(sub, s[1..], i)) <==> (exists i :: OccursAt(sub, s, i))
  {
    if exists i :: OccursAt(sub, s[1..], i) {
      var i :| OccursAt(sub, s[1..], i);
      assert s[1..][i..i + |sub|] == s[i + 1..i + 1 + |sub|];
      assert OccursAt(sub, s, i + 1);
    }
    if exists i :: OccursAt(sub, s, i) {
      var i :| OccursAt(sub, s, i);
      assert i != 0;
      assert s[1..][i - 1..i - 1 + |sub|] == s[i..i + |sub|];
      assert OccursAt(sub, s[1..], i - 1);
    }
  }

  /** A string without the first character of `sub` does not contain `sub`. */
  lemma FirstCharMissing(s: string, sub: string)
    requires |sub| > 0 && forall i :: 0 <= i < |s| ==> s[i] != sub[0]
    ensures !Contains(s, sub)
  {
    forall i | 0 <= i && i + |sub| <= |s|
      ensures !OccursAt(sub, s, i)
    {
      assert s[i..i + |sub|][0] == s[i];
    }
  }

  /** Python's `s.endswith(suffix)`. */
  predicate EndsWith(s: string, suffix: string) {
    |suffix| <= |s| && s[|s| - |suffix|..] == suffix
  }

  /** Python's `s[:n]`. */
  function Prefix(s: string, n: nat): (r: string)
    ensures |r| <= n && |r| <= |s|
    ensures r == s[..|r|]
    ensures |s| <= n ==> r == s
  {
    if |s| <= n then s else s[..n]
  }

  function DigitChar(d: nat): char
    requires d < 10
  {
    "0123456789"[d]
  }

  /** Python's `str(n)` for a natural number. */
  function NatToString(n: nat): (r: string)
    ensures |r| >= 1
    ensures forall i :: 0 <= i < |r| ==> '0' <= r[i] <= '9'
    decreases n
  {
    if n < 10 then [DigitChar(n)] else NatToString(n / 10) + [DigitChar(n % 10)]
  }

  /** Python's `str(i)` for an integer. */
  function IntToString(i: int): (r: string)
    ensures |r| >= 1
    ensures (r[0] == '-') <==> i < 0
  {
    if i < 0 then "-" + NatToString(-i) else NatToString(i)
  }

  function Pow10(n: nat): (r: nat)
    ensures r >= 1
  {
    if n == 0 then 1 else 10 * Pow10(n - 1)
  }

  /** Rounding to the nearest integer, ties to the even neighbour (the rule
      Python's `round` and float formatting apply to the exact value). */
  function RoundToInt(y: real): (n: int)
    ensures y - 0.5 <= n as real <= y + 0.5
    ensures (y - 0.5 == n as real) ==> n % 2 == 0
    ensures (y + 0.5 == n as real) ==> n % 2 == 0
  {
    var f := y.Floor;
    var d := y - f as real;
    if d > 0.5 || (d == 0.5 && f % 2 == 1) then f + 1 else f
  }

  /** `x` scaled by `10^places`. */
  function Scaled(x: real, places: nat): (y: real)
    ensures 0.0 <= x ==> 0.0 <= y
  {
    var p := Pow10(places) as real;
    assert p >= 1.0;
    x * p
  }

  /** Python's `round(x, places)` on the exact value of `x`. */
  function Round(x: real, places: nat): real {
    RoundToInt(Scaled(x, places)) as real / Pow10(places) as real
  }

  lemma ScaleInt(a: int, b: nat)
    ensures (a as real) * (b as real) == (a * b) as real
  {}

  lemma DivideBack(m: int, p: nat)
    requires p >= 1
    ensures ((m * p) as real) / (p as real) == m as real
  {
    ScaleInt(m, p);
  }

  /** Rounding an integer-valued real changes nothing. */
  lemma RoundWhole(n: int, places: nat)
    ensures Round(n as real, places) == n as real
  {
    var p := Pow10(places);
    ScaleInt(n, p);
    assert Scaled(n as real, places) == (n * p) as real;
    assert RoundToInt((n * p) as real) == n * p;
    DivideBack(n, p);
  }

  lemma DivideBetween(n: int, lo: int, hi: int, p: nat)
    requires p >= 1 && lo * p <= n <= hi * p
    ensures lo as real <= n as real / p as real <= hi as real
  {
    ScaleInt(lo, p);
    ScaleInt(hi, p);
  }

  /** Rounding keeps a value between two integer bounds. */
  lemma RoundBetween(x: real, lo: int, hi: int, places: nat)
    requires lo as real <= x <= hi as real
    ensures lo as real <= Round(x, places) <= hi as real
  {
    var p := Pow10(places);
    var y := Scaled(x, places);
    ScaleInt(lo, p);
    ScaleInt(hi, p);
    assert lo as real * p as real <= y <= hi as real * p as real;
    var n := RoundToInt(y);
    assert lo * p <= n <= hi * p;
    DivideBetween(n, lo, hi, p);
  }

  /** Rounding to an integer never reverses the order of two values. */
  lemma RoundToIntMonotone(y1: real, y2: real)
    requires y1 <= y2
    ensures RoundToInt(y1) <= RoundToInt(y2)
  {
    if y1 < y2 {
      var n1, n2 := RoundToInt(y1), RoundToInt(y2);
      assert n1 as real <= y1 + 0.5 && y2 - 0.5 <= n2 as real;
    }
  }

  /** Rounding to any number of places never reverses the order of two values. */
  lemma RoundMonotone(x1: real, x2: real, places: nat)
    requires x1 <= x2
    ensures Round(x1, places) <= Round(x2, places)
  {
    var p := Pow10(places) as real;
    ScaleMonotone(x1, x2, p);
    RoundToIntMonotone(Scaled(x1, places), Scaled(x2, places));
    DivideMonotone(RoundToInt(Scaled(x1, places)) as real, RoundToInt(Scaled(x2, places)) as real, p);
  }

  lemma ScaleMonotone(a: real, b: real, p: real)
    requires a <= b && 0.0 <= p
    ensures a * p <= b * p
  {
    assert b * p - a * p == (b - a) * p;
  }

  lemma DivideMonotone(a: real, b: real, p: real)
    requires a <= b && 0.0 < p
    ensures a / p <= b / p
  {
    assert b / p - a / p == (b - a) / p;
  }

  function PadLeft(s: string, width: nat): (r: string)
    ensures |r| >= width && |r| >= |s|
  {
    if |s| >= width then s else seq(width - |s|, _ => '0') + s
  }

  /** The decimal digits of `n / p` (`p` is `10^places`), with `places` digits after the point. */
  function FixedDigits(n: nat, p: nat, places: nat): string
    requires p >= 1
  {
    var whole: nat := n / p;
    var frac: nat := n % p;
    NatToString(whole) + (if places == 0 then "" else "." + PadLeft(NatToString(frac), places))
  }

  /** Python's `f"{x:.{places}f}"` for a non-negative `x`. */
  function FormatFixed(x: real, places: nat): string
    requires 0.0 <= x
  {
    var n := RoundToInt(Scaled(x, places));
    assert n >= 0;
    FixedDigits(n, Pow10(places), places)
  }
}
