/**
 * String operations of JavaScript that the pipeline relies on, written over
 * `seq<char>`: whitespace as the `\s` class sees it, ASCII case mapping,
 * substring search, `trim`, `replace` with a literal or a `\s+` pattern,
 * `split`/`join` and the decimal rendering of numbers in messages.
 */
module Text {

  /** JavaScript's `\s` class; also exactly what `String.prototype.trim` removes. */
  predicate IsSpace(c: char) {
    c == ' ' || c == '\t' || c == '\n' || c == '\r' || c == '\U{000B}' || c == '\U{000C}'
    || c == '\U{00A0}' || c == '\U{1680}' || ('\U{2000}' <= c <= '\U{200A}')
    || c == '\U{2028}' || c == '\U{2029}' || c == '\U{202F}' || c == '\U{205F}'
    || c == '\U{3000}' || c == '\U{FEFF}'
  }

  predicate IsDigit(c: char) { '0' <= c <= '9' }

  predicate IsAsciiLetter(c: char) { 'a' <= c <= 'z' || 'A' <= c <= 'Z' }

  function LowerChar(c: char): char {
    if 'A' <= c <= 'Z' then (c as int + 32) as char else c
  }

  function UpperChar(c: char): char {
    if 'a' <= c <= 'z' then (c as int - 32) as char else c
  }

  /** `toLowerCase()`, on the ASCII letters. */
  function Lower(s: string): (r: string)
    ensures |r| == |s|
    ensures forall i :: 0 <= i < |s| ==> r[i] == LowerChar(s[i])
  {
    seq(|s|, i requires 0 <= i < |s| => LowerChar(s[i]))
  }

  /** `toUpperCase()`, on the ASCII letters. */
  function Upper(s: string): (r: string)
    ensures |r| == |s|
    ensures forall i :: 0 <= i < |s| ==> r[i] == UpperChar(s[i])
  {
    seq(|s|, i requires 0 <= i < |s| => UpperChar(s[i]))
  }

  predicate StartsWith(s: string, p: string) {
    |p| <= |s| && s[..|p|] == p
  }

  predicate EndsWith(s: string, p: string) {
    |p| <= |s| && s[|s| - |p|..] == p
  }

  predicate OccursAt(s: string, p: string, i: int) {
    0 <= i && i + |p| <= |s| && s[i..i + |p|] == p
  }

  /** `s.indexOf(p, from)`: the first occurrence at or after `from`, or -1. */
  function IndexOf(s: string, p: string, from: nat): (r: int)
    ensures r == -1 || (from <= r && OccursAt(s, p, r))
    ensures forall j :: from <= j && (r == -1 || j < r) ==> !OccursAt(s, p, j)
    decreases |s| - from
  {
    if from + |p| > |s| then -1
    else if s[from..from + |p|] == p then from
    else IndexOf(s, p, from + 1)
  }

  /** `s.includes(p)`. */
  predicate Contains(s: string, p: string) {
    IndexOf(s, p, 0) >= 0
  }

  lemma OccursContains(s: string, p: string, i: int)
    requires OccursAt(s, p, i)
    ensures Contains(s, p)
  {
  }

  /** `s.includes(p)` again, as a scan from the left that stops at the first match. */
  predicate Includes(s: string, p: string)
    decreases |s|
  {
    |p| <= |s| && (s[..|p|] == p || Includes(s[1..], p))
  }

  /** The scan agrees with the search by `IndexOf`. */
  lemma IncludesIsContains(s: string, p: string)
    ensures Includes(s, p) <==> Contains(s, p)
  {
    if Includes(s, p) {
      var i := IncludedAt(s, p);
      OccursContains(s, p, i);
    } else if Contains(s, p) {
      NotIncludedNowhere(s, p, IndexOf(s, p, 0));
    }
  }

  /** A position where `p` occurs, when the scan finds it. */
  lemma {:induction false} IncludedAt(s: string, p: string) returns (i: nat)
    requires Includes(s, p)
    ensures OccursAt(s, p, i)
    decreases |s|
  {
    if s[..|p|] == p {
      i := 0;
    } else {
      var j := IncludedAt(s[1..], p);
      OccursInSuffix(s, 1, p, j);
      i := j + 1;
    }
  }

  /** Where the scan finds nothing, `p` occurs nowhere. */
  lemma {:induction false} NotIncludedNowhere(s: string, p: string, i: int)
    requires !Includes(s, p)
    ensures !OccursAt(s, p, i)
    decreases |s|
  {
    if OccursAt(s, p, i) && i > 0 {
      assert s[1..][i - 1..i - 1 + |p|] == s[i..i + |p|];
      NotIncludedNowhere(s[1..], p, i - 1);
    }
  }

  /** An occurrence inside a prefix is an occurrence in the whole string. */
  lemma OccursInPrefix(s: string, n: nat, p: string, j: int)
    requires n <= |s| && OccursAt(s[..n], p, j)
    ensures OccursAt(s, p, j)
  {
    assert s[..n][j..j + |p|] == s[j..j + |p|];
  }

  /** An occurrence inside a suffix is an occurrence in the whole string. */
  lemma OccursInSuffix(s: string, n: nat, p: string, j: int)
    requires n <= |s| && OccursAt(s[n..], p, j)
    ensures OccursAt(s, p, n + j)
  {
    assert s[n..][j..j + |p|] == s[n + j..n + j + |p|];
  }

  // ---------------------------------------------------------------- trimming

  /** `trimStart()`. */
  function TrimStart(s: string): (r: string)
    ensures |r| <= |s| && r == s[|s| - |r|..]
    ensures r == [] || !IsSpace(r[0])
    ensures s != [] && IsSpace(s[0]) ==> |r| < |s|
    decreases |s|
  {
    if s != [] && IsSpace(s[0]) then TrimStart(s[1..]) else s
  }

  /** `trimEnd()`. */
  function TrimEnd(s: string): (r: string)
    ensures |r| <= |s| && r == s[..|r|]
    ensures r == [] || !IsSpace(r[|r| - 1])
    decreases |s|
  {
    if s != [] && IsSpace(s[|s| - 1]) then TrimEnd(s[..|s| - 1]) else s
  }

  /** `trim()`: the middle of `s` between its leading and trailing whitespace. */
  function Trim(s: string): (r: string)
    ensures r == [] || (!IsSpace(r[0]) && !IsSpace(r[|r| - 1]))
    ensures var i := |s| - |TrimStart(s)|;
      && i + |r| <= |s| && r == s[i..i + |r|]
      && (forall k :: 0 <= k < i ==> IsSpace(s[k]))
      && (forall k :: i + |r| <= k < |s| ==> IsSpace(s[k]))
  {
    var t := TrimStart(s);
    var r := TrimEnd(t);
    TrimMiddle(s, t, r);
    r
  }

  /** The trimmed text sits between the whitespace `TrimStart` and `TrimEnd` dropped. */
  lemma TrimMiddle(s: string, t: string, r: string)
    requires t == TrimStart(s) && r == TrimEnd(t)
    ensures var i := |s| - |t|;
      && i + |r| <= |s| && r == s[i..i + |r|]
      && (forall k :: 0 <= k < i ==> IsSpace(s[k]))
      && (forall k :: i + |r| <= k < |s| ==> IsSpace(s[k]))
  {
    TrimStartDrops(s);
    TrimEndDrops(t);
    SliceOfSuffix(s, t, r);
  }

  /** A prefix `r` of a suffix `t` of `s` is a slice of `s`; what `t` has after `r` is what `s` has there. */
  lemma SliceOfSuffix(s: string, t: string, r: string)
    requires |t| <= |s| && t == s[|s| - |t|..] && |r| <= |t| && r == t[..|r|]
    requires forall k :: |r| <= k < |t| ==> IsSpace(t[k])
    ensures r == s[|s| - |t|..|s| - |t| + |r|]
    ensures forall k :: |s| - |t| + |r| <= k < |s| ==> IsSpace(s[k])
  {
    forall k | |s| - |t| + |r| <= k < |s|
      ensures IsSpace(s[k])
    {
      assert s[k] == t[k - (|s| - |t|)];
    }
  }

  /** `TrimStart` drops only whitespace. */
  lemma {:induction false} TrimStartDrops(s: string)
    ensures forall k :: 0 <= k < |s| - |TrimStart(s)| ==> IsSpace(s[k])
    decreases |s|
  {
    if s != [] && IsSpace(s[0]) {
      TrimStartDrops(s[1..]);
      forall k | 1 <= k < |s| - |TrimStart(s)|
        ensures IsSpace(s[k])
      {
        assert s[k] == s[1..][k - 1];
      }
    }
  }

  /** `TrimEnd` drops only whitespace. */
  lemma {:induction false} TrimEndDrops(s: string)
    ensures forall k :: |TrimEnd(s)| <= k < |s| ==> IsSpace(s[k])
    decreases |s|
  {
    if s != [] && IsSpace(s[|s| - 1]) {
      TrimEndDrops(s[..|s| - 1]);
      forall k | |TrimEnd(s)| <= k < |s| - 1
        ensures IsSpace(s[k])
      {
        assert s[k] == s[..|s| - 1][k];
      }
    }
  }

  // ------------------------------------------------------ whitespace runs

  /** `s.replace(/\s+/g, rep)`: every maximal whitespace run becomes `rep`. */
  function ReplaceSpaceRuns(s: string, rep: string): string
    decreases |s|
  {
    if s == [] then []
    else if IsSpace(s[0]) then rep + ReplaceSpaceRuns(TrimStart(s), rep)
    else [s[0]] + ReplaceSpaceRuns(s[1..], rep)
  }

  /** `s.replace(/\s+/g, ' ')`. */
  function CollapseSpaces(s: string): string {
    ReplaceSpaceRuns(s, " ")
  }

  /** Every whitespace character is a plain space with no whitespace after it. */
  predicate SingleSpaced(t: string) {
    forall i :: 0 <= i < |t| && IsSpace(t[i]) ==> t[i] == ' ' && (i + 1 < |t| ==> !IsSpace(t[i + 1]))
  }

  /** Single-spaced, with no whitespace at either end. */
  predicate Normalized(t: string) {
    SingleSpaced(t) && (t == [] || (!IsSpace(t[0]) && !IsSpace(t[|t| - 1])))
  }

  lemma NoSpaceHeadKept(s: string, rep: string)
    requires s != [] && !IsSpace(s[0])
    ensures ReplaceSpaceRuns(s, rep) != [] && ReplaceSpaceRuns(s, rep)[0] == s[0]
  {
  }

  /** Collapsing leaves no run of whitespace and no whitespace other than ' '. */
  lemma {:induction false} CollapseSingleSpaced(s: string)
    ensures SingleSpaced(CollapseSpaces(s))
    decreases |s|
  {
    if s == [] {
    } else if IsSpace(s[0]) {
      var t := TrimStart(s);
      CollapseSingleSpaced(t);
      var rest := CollapseSpaces(t);
      if t != [] {
        NoSpaceHeadKept(t, " ");
      }
      assert CollapseSpaces(s) == " " + rest;
      forall i | 0 <= i < |" " + rest| && IsSpace((" " + rest)[i])
        ensures (" " + rest)[i] == ' ' && (i + 1 < |" " + rest| ==> !IsSpace((" " + rest)[i + 1]))
      {
        if i > 0 {
          assert (" " + rest)[i] == rest[i - 1];
        }
      }
    } else {
      CollapseSingleSpaced(s[1..]);
      var rest := CollapseSpaces(s[1..]);
      assert CollapseSpaces(s) == [s[0]] + rest;
      forall i | 0 <= i < |[s[0]] + rest| && IsSpace(([s[0]] + rest)[i])
        ensures ([s[0]] + rest)[i] == ' ' && (i + 1 < |[s[0]] + rest| ==> !IsSpace(([s[0]] + rest)[i + 1]))
      {
        assert i > 0;
        assert ([s[0]] + rest)[i] == rest[i - 1];
      }
    }
  }

  lemma SingleSpacedSlice(t: string, a: nat, b: nat)
    requires SingleSpaced(t) && a <= b <= |t|
    ensures SingleSpaced(t[a..b])
  {
    forall i | 0 <= i < b - a && IsSpace(t[a..b][i])
      ensures t[a..b][i] == ' ' && (i + 1 < b - a ==> !IsSpace(t[a..b][i + 1]))
    {
      assert t[a..b][i] == t[a + i];
      if i + 1 < b - a {
        assert t[a..b][i + 1] == t[a + i + 1];
      }
    }
  }

  /** Trimming a single-spaced string gives a normalized one. */
  lemma TrimNormalizes(t: string)
    requires SingleSpaced(t)
    ensures Normalized(Trim(t))
  {
    var u := TrimStart(t);
    SingleSpacedSlice(t, |t| - |u|, |t|);
    SingleSpacedSlice(u, 0, |TrimEnd(u)|);
    var r := TrimEnd(u);
    if r != [] {
      assert r[0] == u[0];
    }
  }

  /** `s.replace(/\s+/g, ' ').trim()` is normalized. */
  lemma CollapseTrimNormalized(s: string)
    ensures Normalized(Trim(CollapseSpaces(s)))
  {
    CollapseSingleSpaced(s);
    TrimNormalizes(CollapseSpaces(s));
  }

  /** Collapsing changes nothing in a single-spaced text. */
  lemma {:induction false} CollapseSingleSpacedKept(s: string)
    requires SingleSpaced(s)
    ensures CollapseSpaces(s) == s
    decreases |s|
  {
    if s != [] {
      SingleSpacedSlice(s, 1, |s|);
      CollapseSingleSpacedKept(s[1..]);
      assert s == [s[0]] + s[1..];
      if IsSpace(s[0]) {
        assert s[0] == ' ';
        assert TrimStart(s[1..]) == s[1..];
        assert TrimStart(s) == s[1..];
        assert CollapseSpaces(s) == " " + CollapseSpaces(s[1..]);
      } else {
        assert CollapseSpaces(s) == [s[0]] + CollapseSpaces(s[1..]);
      }
    }
  }

  /** Collapsing and trimming change nothing in a normalized text. */
  lemma CollapseTrimKept(s: string)
    ensures Normalized(s) ==> Trim(CollapseSpaces(s)) == s
  {
    if Normalized(s) {
      CollapseSingleSpacedKept(s);
      assert TrimStart(s) == s;
    }
  }

  /** A replaced run never leaves whitespace behind when `rep` has none. */
  lemma {:induction false} ReplaceSpaceRunsNoSpace(s: string, rep: string)
    requires forall k :: 0 <= k < |rep| ==> !IsSpace(rep[k])
    ensures forall k :: 0 <= k < |ReplaceSpaceRuns(s, rep)| ==> !IsSpace(ReplaceSpaceRuns(s, rep)[k])
    decreases |s|
  {
    if s == [] {
    } else if IsSpace(s[0]) {
      ReplaceSpaceRunsNoSpace(TrimStart(s), rep);
      var rest := ReplaceSpaceRuns(TrimStart(s), rep);
      forall k | 0 <= k < |rep + rest| ensures !IsSpace((rep + rest)[k]) {
        if k >= |rep| {
          assert (rep + rest)[k] == rest[k - |rep|];
        }
      }
    } else {
      ReplaceSpaceRunsNoSpace(s[1..], rep);
      var rest := ReplaceSpaceRuns(s[1..], rep);
      forall k | 0 <= k < |[s[0]] + rest| ensures !IsSpace(([s[0]] + rest)[k]) {
        if k > 0 {
          assert ([s[0]] + rest)[k] == rest[k - 1];
        }
      }
    }
  }

  // ------------------------------------------------------ literal replace

  /** `s.replace(/p/g, r)` for a pattern `p` that matches only itself. */
  function ReplaceAll(s: string, p: string, r: string): string
    requires |p| > 0
    decreases |s|
  {
    if |s| < |p| then s
    else if s[..|p|] == p then r + ReplaceAll(s[|p|..], p, r)
    else [s[0]] + ReplaceAll(s[1..], p, r)
  }

  /** A text without the pattern's first character is left as it is. */
  lemma {:induction false} ReplaceAllAbsent(s: string, p: string, r: string)
    requires |p| > 0
    ensures p[0] !in s ==> ReplaceAll(s, p, r) == s
    decreases |s|
  {
    if p[0] !in s && |s| >= |p| {
      assert s[..|p|][0] != p[0];
      ReplaceAllAbsent(s[1..], p, r);
      assert [s[0]] + s[1..] == s;
    }
  }

  // ---------------------------------------------------------- split / join

  /** `s.split(sep)` for a non-empty literal separator. */
  function Split(s: string, sep: string): (parts: seq<string>)
    requires |sep| > 0
    ensures |parts| >= 1
    decreases |s|
  {
    var i := IndexOf(s, sep, 0);
    if i < 0 then [s] else [s[..i]] + Split(s[i + |sep|..], sep)
  }

  /** `parts.join(sep)`. */
  function Join(parts: seq<string>, sep: string): string
    decreases |parts|
  {
    if |parts| == 0 then ""
    else if |parts| == 1 then parts[0]
    else parts[0] + sep + Join(parts[1..], sep)
  }

  /** One step of a split: the piece before the first separator, then the split of the rest. */
  lemma SplitStep(s: string, sep: string, i: nat)
    requires |sep| > 0 && IndexOf(s, sep, 0) == i
    ensures i + |sep| <= |s| && Split(s, sep) == [s[..i]] + Split(s[i + |sep|..], sep)
    ensures s == s[..i] + sep + s[i + |sep|..]
  {
    ThreeWay(s, i, |sep|);
  }

  /** Joining the pieces of a split with the same separator gives the text back. */
  lemma {:induction false} JoinSplit(s: string, sep: string)
    requires |sep| > 0
    ensures Join(Split(s, sep), sep) == s
    decreases |s|
  {
    if IndexOf(s, sep, 0) >= 0 {
      var i := IndexOf(s, sep, 0);
      var tail := s[i + |sep|..];
      SplitStep(s, sep, i);
      JoinSplit(tail, sep);
      JoinCons(s[..i], Split(tail, sep), sep);
    }
  }

  lemma JoinCons(a: string, rest: seq<string>, sep: string)
    requires |rest| >= 1
    ensures Join([a] + rest, sep) == a + sep + Join(rest, sep)
  {
    assert ([a] + rest)[1..] == rest;
  }

  lemma ThreeWay(s: string, i: nat, n: nat)
    requires i + n <= |s|
    ensures s == s[..i] + s[i..i + n] + s[i + n..]
  {
  }

  /** No piece of a split contains the separator. */
  lemma {:induction false} SplitPiecesFree(s: string, sep: string)
    requires |sep| > 0
    ensures forall k :: 0 <= k < |Split(s, sep)| ==> !Contains(Split(s, sep)[k], sep)
    decreases |s|
  {
    var i := IndexOf(s, sep, 0);
    if i >= 0 {
      var tail := s[i + |sep|..];
      SplitPiecesFree(tail, sep);
      var rest := Split(tail, sep);
      assert Split(s, sep) == [s[..i]] + rest;
      if Contains(s[..i], sep) {
        var j := IndexOf(s[..i], sep, 0);
        OccursInPrefix(s, i, sep, j);
        assert false;
      }
      forall k | 0 <= k < |Split(s, sep)| ensures !Contains(Split(s, sep)[k], sep) {
        if k > 0 {
          assert Split(s, sep)[k] == rest[k - 1];
        }
      }
    }
  }

  /** Within the first text, an occurrence is the same with or without more text after it. */
  lemma OccursWithin(t: string, c: string, p: string, j: int)
    requires 0 <= j && j + |p| <= |t|
    ensures OccursAt(t + c, p, j) <==> OccursAt(t, p, j)
  {
    assert (t + c)[j..j + |p|] == t[j..j + |p|];
  }

  /** A first occurrence in a text is still the first once more text follows. */
  lemma IndexOfExtends(t: string, c: string, p: string)
    requires |p| > 0 && IndexOf(t, p, 0) >= 0
    ensures IndexOf(t + c, p, 0) == IndexOf(t, p, 0)
  {
    var r := IndexOf(t, p, 0);
    var r' := IndexOf(t + c, p, 0);
    OccursWithin(t, c, p, r);
    if r' < r {
      OccursWithin(t, c, p, r');
    }
  }

  /** Appending text only changes the last piece of a split: the earlier pieces are final. */
  lemma {:induction false} SplitAppend(t: string, c: string, sep: string, parts: seq<string>)
    requires |sep| > 0 && parts == Split(t, sep)
    ensures |parts| > 0 && Split(t + c, sep) == parts[..|parts| - 1] + Split(parts[|parts| - 1] + c, sep)
    decreases |t|
  {
    var i := IndexOf(t, sep, 0);
    if i >= 0 {
      var tail := t[i + |sep|..];
      var rest := Split(tail, sep);
      SplitStep(t, sep, i);
      SplitAfterFirst(t, c, sep, i);
      SplitAppend(tail, c, sep, rest);
      PiecesAfterHead(parts, Split(t + c, sep), t[..i], rest, Split(tail + c, sep),
                      Split(rest[|rest| - 1] + c, sep));
    } else {
      SplitWhole(parts, t, Split(t + c, sep));
    }
  }

  /** The bookkeeping of `SplitAppend` when the text holds no separator yet. */
  lemma SplitWhole(parts: seq<string>, t: string, whole: seq<string>)
    requires parts == [t]
    ensures whole == parts[..|parts| - 1] + whole && parts[|parts| - 1] == t
  {
    assert parts[..0] == [];
  }

  /** The sequence bookkeeping of `SplitAppend`: a first piece in front of both sides. */
  lemma PiecesAfterHead(parts: seq<string>, whole: seq<string>, head: string, rest: seq<string>,
                        restWhole: seq<string>, more: seq<string>)
    requires |rest| > 0
    requires parts == [head] + rest && whole == [head] + restWhole
    requires restWhole == rest[..|rest| - 1] + more
    ensures |parts| > 0 && parts[|parts| - 1] == rest[|rest| - 1]
    ensures whole == parts[..|parts| - 1] + more
  {
    assert parts[..|parts| - 1] == [head] + rest[..|rest| - 1];
  }

  /** The first piece of a split is unchanged by text appended after its separator. */
  lemma SplitAfterFirst(t: string, c: string, sep: string, i: nat)
    requires |sep| > 0 && IndexOf(t, sep, 0) == i
    ensures i + |sep| <= |t| && Split(t + c, sep) == [t[..i]] + Split(t[i + |sep|..] + c, sep)
  {
    var u := t + c;
    IndexOfExtends(t, c, sep);
    SplitStep(u, sep, i);
    SlicesOfConcat(t, c, i, i + |sep|);
  }

  lemma SlicesOfConcat(t: string, c: string, i: nat, j: nat)
    requires i <= j <= |t|
    ensures (t + c)[..i] == t[..i] && (t + c)[j..] == t[j..] + c
  {
  }

  // ------------------------------------------------------------ capitals

  /** `s.charAt(0).toUpperCase() + s.slice(1)`. */
  function Capitalize(s: string): (r: string)
    ensures |r| == |s|
    ensures s != [] ==> r[0] == UpperChar(s[0]) && r[1..] == s[1..]
  {
    if s == [] then [] else [UpperChar(s[0])] + s[1..]
  }

  /** `w.charAt(0).toUpperCase() + w.slice(1).toLowerCase()`. */
  function CapitalizeWord(w: string): string {
    if w == [] then [] else [UpperChar(w[0])] + Lower(w[1..])
  }

  function CapitalizeAll(ws: seq<string>): (r: seq<string>)
    ensures |r| == |ws|
    decreases |ws|
  {
    if ws == [] then [] else [CapitalizeWord(ws[0])] + CapitalizeAll(ws[1..])
  }

  /** `s.split(' ').map(CapitalizeWord).join(' ')`. */
  function TitleCase(s: string): string {
    Join(CapitalizeAll(Split(s, " ")), " ")
  }

  /** The character a title-cased text holds at `i`: upper case at a word start, lower case elsewhere. */
  function TitleChar(s: string, i: nat): char
    requires i < |s|
  {
    if i == 0 || s[i - 1] == ' ' then UpperChar(s[i]) else LowerChar(s[i])
  }

  /** A word without spaces is capitalized as a whole. */
  lemma TitleCaseWord(s: string)
    requires IndexOf(s, " ", 0) < 0
    ensures TitleCase(s) == CapitalizeWord(s)
  {
    assert Split(s, " ") == [s];
    assert CapitalizeAll([s]) == [CapitalizeWord(s)];
  }

  /** Before the first space no character is a space. */
  lemma NoSpaceBefore(s: string, i: nat)
    requires i < |s|
    requires forall j :: 0 <= j < i ==> !OccursAt(s, " ", j)
    ensures forall j :: 0 <= j < i ==> s[j] != ' '
  {
    forall j | 0 <= j < i ensures s[j] != ' ' {
      assert !OccursAt(s, " ", j);
      assert s[j..j + 1] == [s[j]];
    }
  }

  /** Capitalizing a word upper-cases its first character and lower-cases the rest. */
  lemma CapitalizeWordChars(w: string)
    ensures |CapitalizeWord(w)| == |w|
    ensures forall i :: 0 <= i < |w| ==>
      CapitalizeWord(w)[i] == (if i == 0 then UpperChar(w[i]) else LowerChar(w[i]))
  {
  }

  /** Title-casing splits at the first space. */
  lemma TitleCaseStep(s: string)
    requires IndexOf(s, " ", 0) >= 0
    ensures var i0 := IndexOf(s, " ", 0);
      TitleCase(s) == CapitalizeWord(s[..i0]) + " " + TitleCase(s[i0 + 1..])
  {
    var i0 := IndexOf(s, " ", 0);
    var w := s[..i0];
    var rest := Split(s[i0 + 1..], " ");
    assert Split(s, " ") == [w] + rest;
    assert CapitalizeAll([w] + rest) == [CapitalizeWord(w)] + CapitalizeAll(rest);
    JoinCons(CapitalizeWord(w), CapitalizeAll(rest), " ");
  }

  /**
   * Title-casing keeps the length and upper-cases exactly the first letter of
   * each space-separated word, lower-casing the rest.
   */
  lemma {:induction false} TitleCaseChars(s: string)
    ensures |TitleCase(s)| == |s|
    ensures forall i :: 0 <= i < |s| ==> TitleCase(s)[i] == TitleChar(s, i)
    decreases |s|
  {
    var i0 := IndexOf(s, " ", 0);
    if i0 < 0 {
      TitleCaseWord(s);
      CapitalizeWordChars(s);
      if |s| > 0 {
        NoSpaceBefore(s, |s| - 1);
      }
    } else {
      var w := s[..i0];
      var tail := s[i0 + 1..];
      TitleCaseChars(tail);
      TitleCaseStep(s);
      CapitalizeWordChars(w);
      NoSpaceBefore(s, i0);
      TitleCaseSplice(s, i0, CapitalizeWord(w), TitleCase(tail));
    }
  }

  /** The characters of `cw + " " + tc` when `cw` and `tc` title-case the two sides of the space at `i0`. */
  lemma TitleCaseSplice(s: string, i0: nat, cw: string, tc: string)
    requires i0 < |s| && s[i0] == ' '
    requires forall j :: 0 <= j < i0 ==> s[j] != ' '
    requires |cw| == i0
    requires forall i :: 0 <= i < i0 ==> cw[i] == (if i == 0 then UpperChar(s[i]) else LowerChar(s[i]))
    requires |tc| == |s| - i0 - 1
    requires forall i :: 0 <= i < |tc| ==> tc[i] == TitleChar(s[i0 + 1..], i)
    ensures |cw + " " + tc| == |s|
    ensures forall i :: 0 <= i < |s| ==> (cw + " " + tc)[i] == TitleChar(s, i)
  {
    var t := cw + " " + tc;
    forall i | 0 <= i < |s| ensures t[i] == TitleChar(s, i) {
      if i < i0 {
        assert t[i] == cw[i];
      } else if i == i0 {
        assert t[i] == ' ';
        assert UpperChar(' ') == ' ' && LowerChar(' ') == ' ';
      } else {
        assert t[i] == tc[i - i0 - 1];
        assert s[i0 + 1..][i - i0 - 1] == s[i];
        if i - i0 - 1 > 0 {
          assert s[i0 + 1..][i - i0 - 2] == s[i - 1];
        }
      }
    }
  }

  /** Title-casing changes only the case: lowered, it is the lowered input. */
  lemma LowerTitleCase(s: string)
    ensures Lower(TitleCase(s)) == Lower(s)
  {
    TitleCaseChars(s);
    var t := TitleCase(s);
    forall i | 0 <= i < |s| ensures Lower(t)[i] == Lower(s)[i] {
      assert LowerChar(UpperChar(s[i])) == LowerChar(s[i]);
      assert LowerChar(LowerChar(s[i])) == LowerChar(s[i]);
    }
  }

  // -------------------------------------------------------------- numbers

  function DigitChar(d: nat): char
    requires d < 10
  {
    ('0' as int + d) as char
  }

  /** The decimal rendering of a natural number, as template literals print it. */
  function NatToString(n: nat): (r: string)
    ensures |r| >= 1
  {
    if n < 10 then [DigitChar(n)] else NatToString(n / 10) + [DigitChar(n % 10)]
  }

  function IntToString(n: int): string {
    if n < 0 then "-" + NatToString(-n) else NatToString(n)
  }

  /** The positions holding `true`. */
  function TrueAt(flags: seq<bool>): set<nat> {
    set i | 0 <= i < |flags| && flags[i]
  }

  /** Dropping the last flag drops its position, if it held `true`. */
  lemma TrueAtStep(flags: seq<bool>)
    requires flags != []
    ensures var n := |flags| - 1;
      TrueAt(flags) == TrueAt(flags[..n]) + (if flags[n] then {n} else {})
      && n !in TrueAt(flags[..n])
  {
    var n := |flags| - 1;
    assert forall i :: 0 <= i < n ==> flags[..n][i] == flags[i];
  }
}
