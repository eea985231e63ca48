/** The parts of Python's `str` (and sequence slicing) that the services rely
  * on, written out with Python's own edge cases: negative slice indices,
  * `str.splitlines` line boundaries, `str.isspace`, non-overlapping
  * `count`/`replace` (including the empty pattern), and decimal `int`/`str`
  * conversion. */
module PyStr {
  import opened Wrappers

  // ---------------------------------------------------------------------
  // Prefixes and suffixes

  predicate StartsWith(s: string, p: string)
  {
    |p| <= |s| && s[..|p|] == p
  }

  predicate EndsWith(s: string, p: string)
  {
    |p| <= |s| && s[|s| - |p|..] == p
  }

  // ---------------------------------------------------------------------
  // Whitespace and strip()

  /** The characters for which Python's `str.isspace()` is true. */
  predicate IsSpace(c: char)
  {
    ('\U{9}' <= c <= '\U{D}') || ('\U{1C}' <= c <= '\U{20}') || c == '\U{85}'
    || c == '\U{A0}' || c == '\U{1680}' || ('\U{2000}' <= c <= '\U{200A}')
    || c == '\U{2028}' || c == '\U{2029}' || c == '\U{202F}' || c == '\U{205F}' || c == '\U{3000}'
  }

  predicate AllSpace(s: string)
  {
    forall i :: 0 <= i < |s| ==> IsSpace(s[i])
  }

  /** The number of whitespace characters `s` starts with. */
  function LeadingSpaces(s: string): (k: nat)
    ensures k <= |s|
  {
    if s != [] && IsSpace(s[0]) then 1 + LeadingSpaces(s[1..]) else 0
  }

  /** The length of `s` without the whitespace it ends with. */
  function TrailingStart(s: string): (k: nat)
    ensures k <= |s|
  {
    if s != [] && IsSpace(s[|s| - 1]) then TrailingStart(s[..|s| - 1]) else |s|
  }

  lemma {:induction false} LeadingSpacesFacts(s: string)
    ensures var k := LeadingSpaces(s);
            (forall i :: 0 <= i < k ==> IsSpace(s[i])) && (k < |s| ==> !IsSpace(s[k]))
    decreases |s|
  {
    if s != [] && IsSpace(s[0]) {
      LeadingSpacesFacts(s[1..]);
      var k := LeadingSpaces(s);
      forall i | 0 <= i < k
        ensures IsSpace(s[i])
      {
        if i > 0 {
          assert s[1..][i - 1] == s[i];
        }
      }
      if k < |s| {
        assert s[1..][k - 1] == s[k];
      }
    }
  }

  lemma {:induction false} TrailingStartFacts(s: string)
    ensures var k := TrailingStart(s);
            (forall i :: k <= i < |s| ==> IsSpace(s[i])) && (k > 0 ==> !IsSpace(s[k - 1]))
    decreases |s|
  {
    if s != [] && IsSpace(s[|s| - 1]) {
      var t := s[..|s| - 1];
      TrailingStartFacts(t);
      var k := TrailingStart(s);
      forall i | k <= i < |s|
        ensures IsSpace(s[i])
      {
        if i < |s| - 1 {
          assert t[i] == s[i];
        }
      }
      if k > 0 {
        assert t[k - 1] == s[k - 1];
      }
    }
  }

  /** `s.lstrip()`: the suffix of `s` left after its leading whitespace. */
  function LStrip(s: string): string
  {
    s[LeadingSpaces(s)..]
  }

  /** `s.rstrip()`: the prefix of `s` left before its trailing whitespace. */
  function RStrip(s: string): string
  {
    s[..TrailingStart(s)]
  }

  /** `s.strip()`. */
  function Strip(s: string): (r: string)
    ensures |r| <= |s|
  {
    RStrip(LStrip(s))
  }

  /** What `lstrip()` removes is whitespace, and what it keeps does not
    * start with any. */
  lemma LStripFacts(s: string)
    ensures var r := LStrip(s);
            |r| <= |s| && r == s[|s| - |r|..] && AllSpace(s[..|s| - |r|]) && (r == [] || !IsSpace(r[0]))
  {
    LeadingSpacesFacts(s);
  }

  /** What `rstrip()` removes is whitespace, and what it keeps does not end
    * with any. */
  lemma RStripFacts(s: string)
    ensures var r := RStrip(s);
            |r| <= |s| && r == s[..|r|] && AllSpace(s[|r|..]) && (r == [] || !IsSpace(r[|r| - 1]))
  {
    TrailingStartFacts(s);
  }

  /** A stripped string neither starts nor ends with whitespace. */
  lemma StripEnds(s: string)
    ensures var r := Strip(s);
            r == [] || (!IsSpace(r[0]) && !IsSpace(r[|r| - 1]))
  {
    var l := LStrip(s);
    LStripFacts(s);
    RStripFacts(l);
    TrailingStartFacts(l);
    if Strip(s) != [] {
      assert Strip(s)[0] == l[0];
    }
  }

  lemma StripNoSpace(s: string)
    requires s == [] || (!IsSpace(s[0]) && !IsSpace(s[|s| - 1]))
    ensures Strip(s) == s
  {
    if s != [] {
      assert LeadingSpaces(s) == 0;
      assert TrailingStart(s) == |s|;
    }
  }

  /** A leading space is stripped. */
  lemma StripSpaceCons(s: string)
    ensures Strip([' '] + s) == Strip(s)
  {
    var t := [' '] + s;
    assert t[1..] == s;
    assert LeadingSpaces(t) == 1 + LeadingSpaces(s);
    assert t[1 + LeadingSpaces(s)..] == s[LeadingSpaces(s)..];
  }

  lemma StripIdempotent(s: string)
    ensures Strip(Strip(s)) == Strip(s)
  {
    StripEnds(s);
    StripNoSpace(Strip(s));
  }

  /** `strip()` keeps every character that is not whitespace. */
  lemma StripKeeps(s: string, c: char)
    requires c in s && !IsSpace(c)
    ensures c in Strip(s)
  {
    var i :| 0 <= i < |s| && s[i] == c;
    var k := LeadingSpaces(s);
    LeadingSpacesFacts(s);
    assert k <= i;
    var l := s[k..];
    assert l[i - k] == c;
    var e := TrailingStart(l);
    TrailingStartFacts(l);
    assert i - k < e;
    assert Strip(s) == l[..e];
    assert Strip(s)[i - k] == c;
  }

  lemma LowerKeepsEnds(t: string)
    requires t == [] || (!IsSpace(t[0]) && !IsSpace(t[|t| - 1]))
    ensures var l := Lower(t);
            l == [] || (!IsSpace(l[0]) && !IsSpace(l[|l| - 1]))
  {
  }

  /** Lower-casing a stripped string leaves it stripped. */
  lemma LowerStripped(s: string)
    requires Strip(s) == s
    ensures Strip(Lower(s)) == Lower(s)
  {
    StripEnds(s);
    LowerKeepsEnds(s);
    StripNoSpace(Lower(s));
  }

  // ---------------------------------------------------------------------
  // Case

  /** ASCII lower-casing of one character. */
  function LowerChar(c: char): char
  {
    if 'A' <= c <= 'Z' then (c as int + 32) as char else c
  }

  /** `s.lower()` restricted to ASCII letters. */
  function Lower(s: string): (r: string)
    ensures |r| == |s|
    ensures forall i :: 0 <= i < |s| ==> r[i] == LowerChar(s[i])
  {
    if s == [] then [] else [LowerChar(s[0])] + Lower(s[1..])
  }

  /** A string without upper-case ASCII letters is its own lower form. */
  lemma LowerNoUpper(s: string)
    requires forall i :: 0 <= i < |s| ==> !('A' <= s[i] <= 'Z')
    ensures Lower(s) == s
  {
  }

  lemma LowerCons(c: char, s: string)
    ensures Lower([c] + s) == [LowerChar(c)] + Lower(s)
  {
    assert ([c] + s)[1..] == s;
  }

  lemma LowerIdempotent(s: string)
    ensures Lower(Lower(s)) == Lower(s)
  {
  }

  predicate IsAsciiDigit(c: char)
  {
    '0' <= c <= '9'
  }

  // ---------------------------------------------------------------------
  // Python slicing

  /** The position a Python slice bound `i` denotes in a sequence of
    * length `n` (negative values count from the end; out-of-range values
    * are clamped). */
  function SliceIndex(i: int, n: nat): (k: nat)
    ensures k <= n
    ensures 0 <= i <= n ==> k == i
    ensures -(n as int) <= i < 0 ==> k == n + i
  {
    if i < 0 then (if i + n < 0 then 0 else i + n) else if i > n then n else i
  }

  /** `s[start:stop]` with either bound optional. */
  function Slice<T>(s: seq<T>, start: Option<int>, stop: Option<int>): (r: seq<T>)
    ensures |r| <= |s|
    ensures start.None? && stop.None? ==> r == s
  {
    var lo := if start.Some? then SliceIndex(start.value, |s|) else 0;
    var hi := if stop.Some? then SliceIndex(stop.value, |s|) else |s|;
    if lo < hi then s[lo..hi] else []
  }

  /** `s[:n]` for a non-negative `n`. */
  function Take<T>(s: seq<T>, n: nat): (r: seq<T>)
    ensures |r| == if n < |s| then n else |s|
    ensures r == s[..|r|]
  {
    if n < |s| then s[..n] else s
  }

  // ---------------------------------------------------------------------
  // count() and replace()

  /** `pat` occurs in `s` at position `i`. */
  predicate OccursAt(s: string, pat: string, i: int)
  {
    0 <= i && i + |pat| <= |s| && s[i..i + |pat|] == pat
  }

  predicate IsSubstring(pat: string, s: string)
  {
    exists i :: 0 <= i <= |s| && OccursAt(s, pat, i)
  }

  /** `s.find(pat, from)`: the first position at or after `from` where
    * `pat` occurs. */
  function FindFrom(s: string, pat: string, from: nat): (r: Option<nat>)
    ensures r.Some? ==> from <= r.value && OccursAt(s, pat, r.value)
    ensures r.Some? ==> forall j :: from <= j < r.value ==> !OccursAt(s, pat, j)
    ensures r.None? ==> forall j :: from <= j ==> !OccursAt(s, pat, j)
    decreases |s| + 1 - from
  {
    if from > |s| then None
    else if OccursAt(s, pat, from) then Some(from)
    else FindFrom(s, pat, from + 1)
  }

  /** `s.replace(target, repl, 1)`: only the first occurrence is replaced. */
  function ReplaceFirst(s: string, target: string, repl: string): (r: string)
    ensures StartsWith(s, target) ==> r == repl + s[|target|..]
    ensures !IsSubstring(target, s) ==> r == s
  {
    var k := FindFrom(s, target, 0);
    if k.None? then s
    else
      assert StartsWith(s, target) ==> OccursAt(s, target, 0);
      s[..k.value] + repl + s[k.value + |target|..]
  }

  /** `s.count(pat)`: non-overlapping occurrences scanned left to right; the
    * empty pattern occurs `|s| + 1` times. */
  function Count(s: string, pat: string): nat
  {
    if pat == [] then |s| + 1 else CountFrom(s, pat)
  }

  function CountFrom(s: string, pat: string): nat
    requires pat != []
    decreases |s|
  {
    if |s| < |pat| then 0
    else if s[..|pat|] == pat then 1 + CountFrom(s[|pat|..], pat)
    else CountFrom(s[1..], pat)
  }

  /** `s.replace(target, repl)`: every non-overlapping occurrence, left to right;
    * the empty pattern inserts `repl` before every character and at the end. */
  function Replace(s: string, target: string, repl: string): string
  {
    if target == [] then InsertEverywhere(s, repl) else ReplaceFrom(s, target, repl)
  }

  function InsertEverywhere(s: string, repl: string): string
  {
    if s == [] then repl else repl + [s[0]] + InsertEverywhere(s[1..], repl)
  }

  function ReplaceFrom(s: string, target: string, repl: string): string
    requires target != []
    decreases |s|
  {
    if |s| < |target| then s
    else if s[..|target|] == target then repl + ReplaceFrom(s[|target|..], target, repl)
    else [s[0]] + ReplaceFrom(s[1..], target, repl)
  }

  /** The count that `count` reports is exactly the number of replacements
    * that `replace` performs: the length changes by that many differences. */
  lemma {:induction false} ReplaceLength(s: string, target: string, repl: string)
    ensures |Replace(s, target, repl)| == |s| + Count(s, target) * (|repl| - |target|)
  {
    if target == [] {
      InsertEverywhereLength(s, repl);
    } else {
      ReplaceFromLength(s, target, repl);
    }
  }

  lemma {:induction false} InsertEverywhereLength(s: string, repl: string)
    ensures |InsertEverywhere(s, repl)| == |s| + (|s| + 1) * |repl|
  {
    if s != [] {
      InsertEverywhereLength(s[1..], repl);
    }
  }

  lemma {:induction false} ReplaceFromLength(s: string, target: string, repl: string)
    requires target != []
    decreases |s|
    ensures |ReplaceFrom(s, target, repl)| == |s| + CountFrom(s, target) * (|repl| - |target|)
  {
    if |s| < |target| {
    } else if s[..|target|] == target {
      var rest := s[|target|..];
      ReplaceFromLength(rest, target, repl);
      var c := CountFrom(rest, target);
      var d := |repl| - |target|;
      assert ReplaceFrom(s, target, repl) == repl + ReplaceFrom(rest, target, repl);
      assert CountFrom(s, target) == 1 + c;
      Distribute(c, d);
    } else {
      ReplaceFromLength(s[1..], target, repl);
    }
  }

  lemma Distribute(c: int, d: int)
    ensures (1 + c) * d == d + c * d
  {
  }

  /** A non-empty pattern is counted zero times exactly when it does not
    * occur anywhere, and then `replace` returns the string unchanged. */
  lemma {:induction false} CountZeroIff(s: string, pat: string, repl: string)
    requires pat != []
    decreases |s|
    ensures Count(s, pat) == 0 <==> !IsSubstring(pat, s)
    ensures Count(s, pat) == 0 ==> Replace(s, pat, repl) == s
  {
    if |s| < |pat| {
      assert forall i :: 0 <= i <= |s| ==> !OccursAt(s, pat, i);
    } else if s[..|pat|] == pat {
      assert OccursAt(s, pat, 0);
    } else {
      CountZeroIff(s[1..], pat, repl);
      if IsSubstring(pat, s[1..]) {
        var i :| 0 <= i <= |s[1..]| && OccursAt(s[1..], pat, i);
        assert s[i + 1..i + 1 + |pat|] == s[1..][i..i + |pat|];
        assert OccursAt(s, pat, i + 1);
      }
      if IsSubstring(pat, s) {
        var i :| 0 <= i <= |s| && OccursAt(s, pat, i);
        assert i != 0;
        assert s[1..][i - 1..i - 1 + |pat|] == s[i..i + |pat|];
        assert OccursAt(s[1..], pat, i - 1);
      }
      if Count(s, pat) == 0 {
        ReplaceUnchanged(s, pat, repl);
      }
    }
  }

  lemma {:induction false} ReplaceUnchanged(s: string, target: string, repl: string)
    requires target != [] && CountFrom(s, target) == 0
    decreases |s|
    ensures ReplaceFrom(s, target, repl) == s
  {
    if |s| >= |target| {
      ReplaceUnchanged(s[1..], target, repl);
    }
  }

  // ---------------------------------------------------------------------
  // splitlines() and join()

  /** The line boundaries of Python's `str.splitlines()`. */
  predicate IsLineBreak(c: char)
  {
    c == '\n' || c == '\r' || c == '\U{B}' || c == '\U{C}' || c == '\U{1C}'
    || c == '\U{1D}' || c == '\U{1E}' || c == '\U{85}' || c == '\U{2028}' || c == '\U{2029}'
  }

  /** Index of the first line boundary in `s`, or `|s|` when there is none. */
  function FirstBreak(s: string): (k: nat)
    ensures k <= |s|
    ensures k < |s| ==> IsLineBreak(s[k])
    ensures forall j :: 0 <= j < k ==> !IsLineBreak(s[j])
  {
    if s == [] then 0 else if IsLineBreak(s[0]) then 0 else 1 + FirstBreak(s[1..])
  }

  /** `s.splitlines()`: "\r\n" is one boundary, a final boundary does not open
    * an empty last line, and "" has no lines. */
  function SplitLines(s: string): (lines: seq<string>)
    decreases |s|
    ensures forall i, j :: 0 <= i < |lines| && 0 <= j < |lines[i]| ==> !IsLineBreak(lines[i][j])
  {
    if s == [] then []
    else
      var k := FirstBreak(s);
      if k == |s| then [s]
      else
        var w := if s[k] == '\r' && k + 1 < |s| && s[k + 1] == '\n' then 2 else 1;
        [s[..k]] + SplitLines(s[k + w..])
  }

  function Join(sep: string, parts: seq<string>): string
  {
    if parts == [] then [] else if |parts| == 1 then parts[0] else parts[0] + sep + Join(sep, parts[1..])
  }

  /** One step of `splitlines()` at a "\n" boundary. */
  lemma SplitLinesAtNewline(s: string)
    requires FirstBreak(s) < |s| && s[FirstBreak(s)] == '\n'
    ensures SplitLines(s) == [s[..FirstBreak(s)]] + SplitLines(s[FirstBreak(s) + 1..])
  {
  }

  lemma JoinCons(sep: string, a: string, t: seq<string>)
    requires t != []
    ensures Join(sep, [a] + t) == a + sep + Join(sep, t)
  {
    assert ([a] + t)[1..] == t;
  }

  /** Every line boundary in `s` is a "\n". */
  predicate NewlinesOnly(s: string)
  {
    forall i :: 0 <= i < |s| ==> IsLineBreak(s[i]) ==> s[i] == '\n'
  }

  lemma NewlinesOnlySuffix(s: string, j: nat)
    requires j <= |s| && NewlinesOnly(s)
    ensures NewlinesOnly(s[j..])
  {
    forall i | 0 <= i < |s| - j
      ensures IsLineBreak(s[j..][i]) ==> s[j..][i] == '\n'
    {
      assert s[j..][i] == s[j + i];
    }
  }

  /** The text around a "\n" at the first boundary is the first line,
    * the "\n" and the text after it, which has at least one line. */
  lemma JoinSplitStep(s: string, k: nat)
    requires k == FirstBreak(s) && k + 1 < |s| && s[k] == '\n'
    ensures Join("\n", SplitLines(s)) == s[..k] + "\n" + Join("\n", SplitLines(s[k + 1..]))
    ensures s == s[..k] + "\n" + s[k + 1..]
  {
    SplitLinesAtNewline(s);
    SplitLinesNonEmpty(s[k + 1..]);
    JoinCons("\n", s[..k], SplitLines(s[k + 1..]));
    SliceAround(s, k);
  }

  lemma SplitLinesNonEmpty(t: string)
    requires t != []
    ensures SplitLines(t) != []
  {
  }

  lemma SliceAround(s: string, k: nat)
    requires k < |s|
    ensures s == s[..k] + [s[k]] + s[k + 1..]
  {
  }

  /** Lines separated only by "\n", with no "\n" at the very end, split and
    * rejoin to the same text. */
  lemma {:induction false} JoinSplitLines(s: string)
    requires NewlinesOnly(s)
    requires s == [] || s[|s| - 1] != '\n'
    decreases |s|
    ensures Join("\n", SplitLines(s)) == s
  {
    if s != [] {
      var k := FirstBreak(s);
      if k < |s| {
        assert s[k] == '\n';
        assert k + 1 < |s|;
        var rest := s[k + 1..];
        assert rest[|rest| - 1] == s[|s| - 1];
        NewlinesOnlySuffix(s, k + 1);
        JoinSplitLines(rest);
        JoinSplitStep(s, k);
      }
    }
  }

  // ---------------------------------------------------------------------
  // Decimal integers

  function DigitChar(d: nat): char
    requires d < 10
  {
    ('0' as int + d) as char
  }

  /** `str(n)` for a natural number. */
  function NatToStr(n: nat): (r: string)
    ensures |r| >= 1
    ensures forall i :: 0 <= i < |r| ==> IsAsciiDigit(r[i])
  {
    if n < 10 then [DigitChar(n)] else NatToStr(n / 10) + [DigitChar(n % 10)]
  }

  function Pow10(k: nat): (p: nat)
    ensures p >= 1
  {
    if k == 0 then 1 else 10 * Pow10(k - 1)
  }

  /** The numbers from `10^(k-1)` to `10^k - 1` are written with exactly
    * `k` digits, the first of them not 0. */
  lemma {:induction false} NatToStrLength(n: nat, k: nat)
    requires k >= 1 && Pow10(k - 1) <= n < Pow10(k)
    ensures |NatToStr(n)| == k && NatToStr(n)[0] != '0'
  {
    if k > 1 {
      assert Pow10(k) == 10 * Pow10(k - 1);
      assert Pow10(k - 1) == 10 * Pow10(k - 2);
      assert Pow10(k - 2) <= n / 10 < Pow10(k - 1);
      NatToStrLength(n / 10, k - 1);
    }
  }

  /** `str(n)` for any integer. */
  function IntToStr(n: int): string
  {
    if n < 0 then "-" + NatToStr(-n) else NatToStr(n)
  }

  predicate AllDigits(s: string)
  {
    forall i :: 0 <= i < |s| ==> IsAsciiDigit(s[i])
  }

  /** The value of a string of ASCII digits. */
  function DigitsValue(s: string): nat
    requires AllDigits(s)
  {
    if s == [] then 0
    else
      assert IsAsciiDigit(s[|s| - 1]);
      DigitsValue(s[..|s| - 1]) * 10 + (s[|s| - 1] as int - '0' as int)
  }

  /** A decimal literal with no surrounding whitespace: an optional sign
    * and at least one ASCII digit. */
  function ParseSigned(t: string): Option<int>
  {
    if t == [] then None
    else if t[0] == '-' || t[0] == '+' then
      if t[1..] != [] && AllDigits(t[1..])
      then Some(if t[0] == '-' then -(DigitsValue(t[1..]) as int) else DigitsValue(t[1..]))
      else None
    else if AllDigits(t) then Some(DigitsValue(t))
    else None
  }

  /** Python's `int(s)` on a decimal literal: surrounding whitespace, an
    * optional sign and at least one ASCII digit; anything else fails. */
  function ParseInt(s: string): Option<int>
  {
    ParseSigned(Strip(s))
  }

  lemma {:induction false} DigitsOfNatToStr(n: nat)
    ensures DigitsValue(NatToStr(n)) == n
  {
    if n >= 10 {
      DigitsOfNatToStr(n / 10);
      var r := NatToStr(n);
      assert r[..|r| - 1] == NatToStr(n / 10);
    }
  }

  lemma ParseUnpadded(s: string)
    requires s == [] || (!IsSpace(s[0]) && !IsSpace(s[|s| - 1]))
    ensures ParseInt(s) == ParseSigned(s)
  {
    StripNoSpace(s);
  }

  lemma ParseDigits(d: string)
    requires d != [] && AllDigits(d)
    ensures ParseInt(d) == Some(DigitsValue(d) as int)
  {
    assert IsAsciiDigit(d[0]) && IsAsciiDigit(d[|d| - 1]);
    ParseUnpadded(d);
  }

  lemma MinusDigits(d: string)
    requires d != [] && AllDigits(d)
    ensures var t := "-" + d;
            ParseSigned(t) == Some(-(DigitsValue(d) as int)) && !IsSpace(t[0]) && !IsSpace(t[|t| - 1])
  {
    var t := "-" + d;
    assert t[1..] == d;
    assert t[|t| - 1] == d[|d| - 1] && IsAsciiDigit(d[|d| - 1]);
  }

  lemma ParseNegativeDigits(d: string)
    requires d != [] && AllDigits(d)
    ensures ParseInt("-" + d) == Some(-(DigitsValue(d) as int))
  {
    MinusDigits(d);
    ParseUnpadded("-" + d);
  }

  /** `int(str(n)) == n`. */
  lemma ParseIntToStr(n: int)
    ensures ParseInt(IntToStr(n)) == Some(n)
  {
    var m: nat := if n < 0 then -n else n;
    DigitsOfNatToStr(m);
    if n < 0 {
      ParseNegativeDigits(NatToStr(m));
    } else {
      ParseDigits(NatToStr(m));
    }
  }

  // ---------------------------------------------------------------------
  // UTF-8

  /** Bytes in the UTF-8 encoding of one character. */
  function Utf8Width(c: char): nat
  {
    if c as int < 0x80 then 1 else if c as int < 0x800 then 2 else if c as int < 0x10000 then 3 else 4
  }

  /** `len(s.encode('utf-8'))`. */
  function Utf8Length(s: string): (n: nat)
    ensures |s| <= n <= 4 * |s|
  {
    if s == [] then 0 else Utf8Width(s[0]) + Utf8Length(s[1..])
  }

  lemma {:induction false} Utf8LengthAppend(a: string, b: string)
    ensures Utf8Length(a + b) == Utf8Length(a) + Utf8Length(b)
  {
    if a != [] {
      assert (a + b)[0] == a[0];
      assert (a + b)[1..] == a[1..] + b;
      Utf8LengthAppend(a[1..], b);
    } else {
      assert a + b == b;
    }
  }

  lemma {:induction false} Utf8LengthAscii(s: string)
    requires forall i :: 0 <= i < |s| ==> s[i] as int < 0x80
    ensures Utf8Length(s) == |s|
  {
    if s != [] {
      Utf8LengthAscii(s[1..]);
    }
  }
}
