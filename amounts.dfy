/**
 * The money-amount regular expressions of the pipeline, hand-coded for the
 * shapes they take, and `parseFloat` on the text they capture.
 *
 * Every amount pattern is a literal prefix (optionally followed by `\s*`)
 * and then a number `[\d,]+\.?\d*` (or `\d+\.?\d*`), or a number followed
 * by `\s*` and one of a few literal suffixes. For these shapes the
 * backtracking matcher finds, at a given start, exactly the greedy span:
 * the character after any shorter number part is a digit, a comma or a
 * dot, which can neither start `\s*` nor a suffix literal, and the
 * character after a shorter `\s*` is a space, which can start no number
 * and no suffix. So a match at a position is computed greedily here, and
 * the first match is the leftmost start at which that succeeds.
 */
module Amounts {
  import opened Text
  import opened Wrappers

  /** A JavaScript number as the parsers produce it: a value, or `NaN`. */
  datatype JsNumber = Num(v: real) | NaN

  // ------------------------------------------------------------ decimals

  function DigitValue(c: char): nat
    requires IsDigit(c)
  {
    c as int - '0' as int
  }

  /** The value of a run of decimal digits (0 for the empty run). */
  function DigitsValue(d: string): (r: nat)
    requires forall k :: 0 <= k < |d| ==> IsDigit(d[k])
    decreases |d|
  {
    if d == [] then 0 else DigitsValue(d[..|d| - 1]) * 10 + DigitValue(d[|d| - 1])
  }

  function Pow10(n: nat): (r: nat)
    ensures r >= 1
  {
    if n == 0 then 1 else 10 * Pow10(n - 1)
  }

  /** A run of `n` digits is worth less than `10^n`: the digits after the point add less than one. */
  lemma {:induction false} DigitsBelowPow10(d: string)
    requires forall k :: 0 <= k < |d| ==> IsDigit(d[k])
    ensures DigitsValue(d) < Pow10(|d|)
    decreases |d|
  {
    if d != [] {
      var front := d[..|d| - 1];
      DigitsBelowPow10(front);
      assert DigitsValue(front) + 1 <= Pow10(|front|);
      assert DigitsValue(front) * 10 + 10 <= Pow10(|front|) * 10;
      assert DigitValue(d[|d| - 1]) <= 9;
    }
  }

  /** The end of the run of characters from `j` on that satisfy `digitsOnly ? \d : [\d,]`. */
  function RunEnd(s: string, j: nat, digitsOnly: bool): (k: nat)
    requires j <= |s|
    ensures j <= k <= |s|
    ensures forall m :: j <= m < k ==> InClass(s[m], digitsOnly)
    ensures k == |s| || !InClass(s[k], digitsOnly)
    decreases |s| - j
  {
    if j < |s| && InClass(s[j], digitsOnly) then RunEnd(s, j + 1, digitsOnly) else j
  }

  predicate InClass(c: char, digitsOnly: bool) {
    IsDigit(c) || (!digitsOnly && c == ',')
  }

  /** The end of the run of whitespace from `j` on (`\s*`, greedy). */
  function SpaceEnd(s: string, j: nat): (k: nat)
    requires j <= |s|
    ensures j <= k <= |s|
    ensures forall m :: j <= m < k ==> IsSpace(s[m])
    ensures k == |s| || !IsSpace(s[k])
    decreases |s| - j
  {
    if j < |s| && IsSpace(s[j]) then SpaceEnd(s, j + 1) else j
  }

  /**
   * `parseFloat` on text made of digits, dots and anything else: the longest
   * prefix of the form `\d*(\.\d*)?` is read, and it is `NaN` when that
   * prefix holds no digit (`""`, `"."`).
   */
  function ParseDecimal(t: string): (r: JsNumber)
    ensures r.Num? ==> r.v >= 0.0
    ensures r.Num? <==> (|t| > 0 && IsDigit(t[0])) || (|t| > 1 && t[0] == '.' && IsDigit(t[1]))
  {
    var e1 := RunEnd(t, 0, true);
    var e2 := if e1 < |t| && t[e1] == '.' then RunEnd(t, e1 + 1, true) else e1;
    var frac := if e2 > e1 then t[e1 + 1..e2] else [];
    if e1 == 0 && frac == [] then NaN
    else Num(DigitsValue(t[..e1]) as real + DigitsValue(frac) as real / Pow10(|frac|) as real)
  }

  /** `parseFloat` on any text: leading whitespace, an optional sign, then a decimal. */
  function ParseFloat(s: string): (r: JsNumber)
    ensures |s| > 0 && IsDigit(s[0]) ==> r == ParseDecimal(s)
    ensures r.Num? && r.v < 0.0 ==> exists k :: 0 <= k < |s| && s[k] == '-'
  {
    var t := TrimStart(s);
    if t != [] && t[0] == '-' then
      match ParseDecimal(t[1..])
      case Num(v) => Num(-v)
      case NaN => NaN
    else if t != [] && t[0] == '+' then ParseDecimal(t[1..])
    else ParseDecimal(t)
  }

  /** `s.replace(/,/g, '')`. */
  function RemoveCommas(s: string): (r: string)
    ensures forall k :: 0 <= k < |r| ==> r[k] != ','
    ensures |r| <= |s|
    ensures multiset(r) == multiset(s)[',' := 0]
  {
    if s == [] then []
    else
      assert s == [s[0]] + s[1..];
      if s[0] == ',' then RemoveCommas(s[1..])
      else [s[0]] + RemoveCommas(s[1..])
  }

  /** Reading back the decimal rendering of a natural number gives that number. */
  lemma {:induction false} DigitsValueOfString(n: nat)
    ensures forall k :: 0 <= k < |NatToString(n)| ==> IsDigit(NatToString(n)[k])
    ensures DigitsValue(NatToString(n)) == n
    decreases n
  {
    if n >= 10 {
      DigitsValueOfString(n / 10);
      var t := NatToString(n);
      assert t[..|t| - 1] == NatToString(n / 10);
    }
  }

  /** `parseFloat(String(n))` is `n` for every natural number. */
  lemma ParseRendered(n: nat)
    ensures ParseDecimal(NatToString(n)) == Num(n as real)
  {
    DigitsValueOfString(n);
    var t := NatToString(n);
    assert RunEnd(t, 0, true) == |t| by {
      RunEndAll(t, 0);
    }
    assert t[..|t|] == t;
  }

  lemma {:induction false} RunEndAll(t: string, j: nat)
    requires j <= |t|
    requires forall k :: 0 <= k < |t| ==> IsDigit(t[k])
    ensures RunEnd(t, j, true) == |t|
    decreases |t| - j
  {
    if j < |t| {
      RunEndAll(t, j + 1);
    }
  }

  // ------------------------------------------------------------ patterns

  /**
   * `Prefixed(lit, spaces, digitsOnly)`: `lit`, then `\s*` when `spaces`, then
   * the number `[\d,]+\.?\d*` (`\d+\.?\d*` when `digitsOnly`).
   * `Suffixed(alts)`: the number `[\d,]+\.?\d*`, then `\s*`, then one of `alts`.
   * Literals are lower case and compared case-insensitively.
   */
  datatype AmountPattern =
    | Prefixed(lit: string, spaces: bool, digitsOnly: bool)
    | Suffixed(alts: seq<string>)

  /** The span of the number part of a match. */
  datatype Span = Span(start: nat, end: nat)

  /** `lit` occurs at `i`, ignoring the case of ASCII letters. */
  predicate LitAt(s: string, lit: string, i: nat) {
    i + |lit| <= |s| && forall k :: 0 <= k < |lit| ==> LowerChar(s[i + k]) == lit[k]
  }

  /** The greedy end of `[\d,]+\.?\d*` (or `\d+\.?\d*`) starting at `j`. */
  function NumberEnd(s: string, j: nat, digitsOnly: bool): (e: nat)
    requires j < |s| && InClass(s[j], digitsOnly)
    ensures j < e <= |s|
  {
    var e1 := RunEnd(s, j, digitsOnly);
    if e1 < |s| && s[e1] == '.' then RunEnd(s, e1 + 1, true) else e1
  }

  /** The match of `p` starting exactly at `i`, as the span of its number part. */
  function MatchAt(s: string, p: AmountPattern, i: nat): (r: Option<Span>)
    ensures r.Some? ==> i <= r.value.start < r.value.end <= |s|
  {
    match p
    case Prefixed(lit, spaces, digitsOnly) =>
      if !LitAt(s, lit, i) then None
      else
        var j := if spaces then SpaceEnd(s, i + |lit|) else i + |lit|;
        if j < |s| && InClass(s[j], digitsOnly) then Some(Span(j, NumberEnd(s, j, digitsOnly)))
        else None
    case Suffixed(alts) =>
      if i < |s| && InClass(s[i], false) then
        var e := NumberEnd(s, i, false);
        var k := SpaceEnd(s, e);
        if exists a :: a in alts && LitAt(s, a, k) then Some(Span(i, e)) else None
      else None
  }

  /** The first position at or after `from` where `p` matches; `|s| + 1` (or `from` past it) when there is none. */
  function LeftmostAt(s: string, p: AmountPattern, from: nat): (i: nat)
    ensures from <= i && (i <= |s| + 1 || i == from)
    ensures i <= |s| ==> MatchAt(s, p, i).Some?
    ensures forall j :: from <= j < i ==> MatchAt(s, p, j).None?
    decreases |s| + 1 - from
  {
    if from > |s| || MatchAt(s, p, from).Some? then from
    else
      var i := LeftmostAt(s, p, from + 1);
      NoMatchBefore(s, p, from, i);
      i
  }

  /** No match at `from` and none after it up to `i` is no match from `from` up to `i`. */
  lemma NoMatchBefore(s: string, p: AmountPattern, from: nat, i: nat)
    requires MatchAt(s, p, from).None?
    requires forall j :: from + 1 <= j < i ==> MatchAt(s, p, j).None?
    ensures forall j :: from <= j < i ==> MatchAt(s, p, j).None?
  {
  }

  /**
   * The leftmost match of `p` at or after `from`, as `String.prototype.match`
   * reports it: the match at the first position where the pattern matches,
   * and none when it matches nowhere.
   */
  function FirstMatch(s: string, p: AmountPattern, from: nat): (r: Option<Span>)
    ensures r.Some? ==> from <= r.value.start && r.value.end <= |s|
    ensures r == if LeftmostAt(s, p, from) <= |s| then MatchAt(s, p, LeftmostAt(s, p, from)) else None
    ensures r.None? ==> forall i :: from <= i ==> MatchAt(s, p, i).None?
    decreases |s| + 1 - from
  {
    if from > |s| then
      NoMatchPast(s, p, from);
      None
    else if MatchAt(s, p, from).Some? then MatchAt(s, p, from)
    else FirstMatch(s, p, from + 1)
  }

  /** No pattern matches once fewer than one character is left. */
  lemma NoMatchPast(s: string, p: AmountPattern, from: nat)
    requires from > |s|
    ensures forall i :: from <= i ==> MatchAt(s, p, i).None?
  {
  }

  /** `pattern.test(s)`. */
  predicate Matches(s: string, p: AmountPattern) {
    FirstMatch(s, p, 0).Some?
  }

  /** The captured number text of a span, with its commas removed. */
  function CaptureDigits(s: string, sp: Span): string
    requires sp.start <= sp.end <= |s|
  {
    RemoveCommas(s[sp.start..sp.end])
  }

  /** A captured number always starts with a digit or a comma. */
  lemma MatchStartsNumber(s: string, p: AmountPattern, i: nat)
    requires MatchAt(s, p, i).Some?
    ensures var sp := MatchAt(s, p, i).value;
      InClass(s[sp.start], p.Prefixed? && p.digitsOnly)
  {
  }

  /** A number captured by `\d+\.?\d*` never reads as `NaN`. */
  lemma DigitsCaptureIsNumber(s: string, sp: Span)
    requires sp.start < sp.end <= |s| && IsDigit(s[sp.start])
    ensures ParseDecimal(CaptureDigits(s, sp)).Num?
  {
    var t := s[sp.start..sp.end];
    assert t[0] == s[sp.start];
    assert RemoveCommas(t)[0] == t[0];
  }

  /** A comma-only capture such as the one in `"$,"` reads as `NaN`. */
  lemma CommaCaptureIsNaN()
    ensures MatchAt("$,", Prefixed("$", false, false), 0) == Some(Span(1, 2))
    ensures ParseDecimal(CaptureDigits("$,", Span(1, 2))) == NaN
  {
    assert RemoveCommas(",") == [];
  }
}
