/**
 * ASCII approximations of the Python string operations the system relies on:
 * `strip`, `strip(chars)`, `lower`, `upper`, `splitlines`, `isdigit`,
 * `startswith`, `endswith`, `in` on strings and `str(int)`.
 */
module Text {

  /** The ASCII characters `str.strip()` removes: blank, tab, the line breaks and the separators 0x1C-0x1F. */
  const Whitespace: set<char> :=
    {' ', '\t', '\n', '\r', '\U{B}', '\U{C}', '\U{1C}', '\U{1D}', '\U{1E}', '\U{1F}'}

  /** The ASCII characters `str.splitlines()` breaks on; every one is whitespace. */
  const LineBreaks: set<char> := {'\n', '\r', '\U{B}', '\U{C}', '\U{1C}', '\U{1D}', '\U{1E}'}

  predicate IsSpace(c: char) { c in Whitespace }

  /** The index of the first character of `s` outside `cs`, or |s|. */
  function FirstOutside(s: string, cs: set<char>): (i: nat)
    ensures i <= |s| && (i < |s| ==> s[i] !in cs)
    ensures forall j | 0 <= j < i :: s[j] in cs
  {
    if s == [] || s[0] !in cs then 0 else 1 + FirstOutside(s[1..], cs)
  }

  /** The length of `s` once its trailing characters in `cs` are cut off. */
  function EndOutside(s: string, cs: set<char>): (j: nat)
    ensures j <= |s| && (0 < j ==> s[j - 1] !in cs)
    ensures forall k | j <= k < |s| :: s[k] in cs
  {
    if s == [] || s[|s| - 1] !in cs then |s| else EndOutside(s[..|s| - 1], cs)
  }

  lemma FirstOutsideUnique(s: string, cs: set<char>, n: nat)
    requires n <= |s| && (n < |s| ==> s[n] !in cs)
    requires forall j | 0 <= j < n :: s[j] in cs
    ensures FirstOutside(s, cs) == n
  {
  }

  lemma EndOutsideUnique(s: string, cs: set<char>, n: nat)
    requires n <= |s| && (0 < n ==> s[n - 1] !in cs)
    requires forall k | n <= k < |s| :: s[k] in cs
    ensures EndOutside(s, cs) == n
  {
  }

  /** Removes leading characters in `cs`. */
  function TrimStart(s: string, cs: set<char>): string {
    s[FirstOutside(s, cs)..]
  }

  /** Removes trailing characters in `cs`. */
  function TrimEnd(s: string, cs: set<char>): string {
    s[..EndOutside(s, cs)]
  }

  /** Python's `s.strip(chars)` where `cs` is the set of characters in `chars`. */
  function StripChars(s: string, cs: set<char>): (r: string)
    ensures |r| <= |s|
    ensures r == [] || (r[0] !in cs && r[|r| - 1] !in cs)
  {
    TrimEnd(TrimStart(s, cs), cs)
  }

  /** Python's `s.strip()`. */
  function Strip(s: string): string {
    StripChars(s, Whitespace)
  }

  /** Stripping leaves a string alone exactly when neither end is a stripped character. */
  lemma StripCharsNoop(s: string, cs: set<char>)
    requires s == [] || (s[0] !in cs && s[|s| - 1] !in cs)
    ensures StripChars(s, cs) == s
  {
    FirstOutsideUnique(s, cs, 0);
    EndOutsideUnique(s, cs, |s|);
  }

  lemma StripCharsIdempotent(s: string, cs: set<char>)
    ensures StripChars(StripChars(s, cs), cs) == StripChars(s, cs)
  {
    StripCharsNoop(StripChars(s, cs), cs);
  }

  lemma StripIdempotent(s: string)
    ensures Strip(Strip(s)) == Strip(s)
  {
    StripCharsIdempotent(s, Whitespace);
  }

  /** A stripped string is empty exactly when every character was a stripped one. */
  lemma StripCharsEmptyIff(s: string, cs: set<char>)
    ensures StripChars(s, cs) == [] <==> forall i | 0 <= i < |s| :: s[i] in cs
  {
    var a := FirstOutside(s, cs);
    if a < |s| {
      var t := s[a..];
      assert t[0] == s[a];
      assert EndOutside(t, cs) > 0;
    }
  }

  /** Whether `s.strip()` is falsy, i.e. every character is whitespace. */
  predicate IsBlank(s: string) {
    Strip(s) == []
  }

  // ----- case mapping -------------------------------------------------------

  function LowerChar(c: char): char {
    if 'A' <= c <= 'Z' then (c as int + 32) as char else c
  }

  function UpperChar(c: char): char {
    if 'a' <= c <= 'z' then (c as int - 32) as char else c
  }

  /** Python's `s.lower()` on ASCII letters. */
  function Lower(s: string): (r: string)
    ensures |r| == |s| && forall i | 0 <= i < |s| :: r[i] == LowerChar(s[i])
  {
    seq(|s|, i requires 0 <= i < |s| => LowerChar(s[i]))
  }

  /** Python's `s.upper()` on ASCII letters. */
  function Upper(s: string): (r: string)
    ensures |r| == |s| && forall i | 0 <= i < |s| :: r[i] == UpperChar(s[i])
  {
    seq(|s|, i requires 0 <= i < |s| => UpperChar(s[i]))
  }

  lemma LowerIdempotent(s: string)
    ensures Lower(Lower(s)) == Lower(s)
  {
  }

  lemma LowerCharSpace(c: char)
    ensures LowerChar(c) in Whitespace <==> c in Whitespace
  {
  }

  /** Lower-casing keeps whitespace where it is, so it commutes with stripping. */
  lemma StripLower(s: string)
    ensures Strip(Lower(s)) == Lower(Strip(s))
  {
    var ls := Lower(s);
    forall i | 0 <= i < |s| ensures ls[i] in Whitespace <==> s[i] in Whitespace {
      LowerCharSpace(s[i]);
    }
    var a := FirstOutside(s, Whitespace);
    FirstOutsideUnique(ls, Whitespace, a);
    var t, lt := s[a..], ls[a..];
    assert lt == Lower(t);
    var b := EndOutside(t, Whitespace);
    EndOutsideUnique(lt, Whitespace, b);
    assert lt[..b] == Lower(t[..b]);
  }

  // ----- names ----------------------------------------------------------------

  /** `nombre.strip().lower()`: the key under which customers and suppliers are unique. */
  function NormalizeName(s: string): (r: string)
    ensures |r| <= |s|
    ensures r == [] || (!IsSpace(r[0]) && !IsSpace(r[|r| - 1]))
  {
    var t := Strip(s);
    if t == [] then [] else
      LowerCharSpace(t[0]);
      LowerCharSpace(t[|t| - 1]);
      Lower(t)
  }

  /** A normalised name holds no upper-case ASCII letter. */
  lemma NormalizedHasNoUpper(s: string)
    ensures forall i | 0 <= i < |NormalizeName(s)| :: !('A' <= NormalizeName(s)[i] <= 'Z')
  {
  }

  /** Normalising an already normalised name changes nothing. */
  lemma NormalizeNameIdempotent(s: string)
    ensures NormalizeName(NormalizeName(s)) == NormalizeName(s)
  {
    StripLower(Strip(s));
    StripIdempotent(s);
    LowerIdempotent(Strip(s));
  }

  // ----- lines ----------------------------------------------------------------

  /** The index of the first line break in `s`, or |s|. */
  function FirstBreak(s: string): (i: nat)
    ensures i <= |s| && (i < |s| ==> s[i] in LineBreaks)
    ensures forall j | 0 <= j < i :: s[j] !in LineBreaks
  {
    if s == [] || s[0] in LineBreaks then 0 else 1 + FirstBreak(s[1..])
  }

  /**
   * Python's `s.splitlines()`: the pieces between line breaks, `"\r\n"` counting
   * as one break and no empty piece after a final break.
   */
  function SplitLines(s: string): seq<string>
    decreases |s|
  {
    if s == [] then []
    else
      var i := FirstBreak(s);
      if i == |s| then [s]
      else
        var next := if s[i] == '\r' && i + 1 < |s| && s[i + 1] == '\n' then i + 2 else i + 1;
        [s[..i]] + SplitLines(s[next..])
  }

  /** `[ln.strip() for ln in lines if ln.strip()]`. */
  function StripLines(lines: seq<string>): (r: seq<string>)
    ensures |r| <= |lines|
    ensures forall k | 0 <= k < |r| :: r[k] != [] && Strip(r[k]) == r[k]
  {
    if lines == [] then []
    else
      var t := Strip(lines[0]);
      StripIdempotent(lines[0]);
      (if t == [] then [] else [t]) + StripLines(lines[1..])
  }

  lemma StripLinesConcat(a: seq<string>, b: seq<string>)
    ensures StripLines(a + b) == StripLines(a) + StripLines(b)
  {
    if a != [] {
      assert (a + b)[1..] == a[1..] + b;
      StripLinesConcat(a[1..], b);
    } else {
      assert a + b == b;
    }
  }

  /** How many of the first `n` lines are non-blank once trimmed. */
  function NonBlankBefore(lines: seq<string>, n: nat): nat
    requires n <= |lines|
  {
    if n == 0 then 0
    else (if Strip(lines[0]) != [] then 1 else 0) + NonBlankBefore(lines[1..], n - 1)
  }

  /** `StripLines` keeps one entry per non-blank line: there are as many entries as such lines. */
  lemma {:induction false} StripLinesLength(lines: seq<string>)
    ensures |StripLines(lines)| == NonBlankBefore(lines, |lines|)
  {
    if lines != [] {
      StripLinesLength(lines[1..]);
    }
  }

  /** A non-blank line `j` appears trimmed in `StripLines`, after the entries of the non-blank lines before it. */
  lemma {:induction false} StripLinesAt(lines: seq<string>, j: nat)
    requires j < |lines| && Strip(lines[j]) != []
    ensures NonBlankBefore(lines, j) < |StripLines(lines)|
    ensures StripLines(lines)[NonBlankBefore(lines, j)] == Strip(lines[j])
  {
    var t := Strip(lines[0]);
    var head := if t == [] then [] else [t];
    var tail := StripLines(lines[1..]);
    assert StripLines(lines) == head + tail;
    if j > 0 {
      var m := NonBlankBefore(lines[1..], j - 1);
      assert lines[1..][j - 1] == lines[j];
      StripLinesAt(lines[1..], j - 1);
      assert NonBlankBefore(lines, j) == |head| + m;
      assert (head + tail)[|head| + m] == tail[m];
    }
  }

  /** The trimmed non-blank lines of a message. */
  function NonBlankLines(s: string): seq<string> {
    StripLines(SplitLines(s))
  }

  /** Where `splitlines` cuts a text that holds a line break: the first line, and the rest after the break. */
  function NextLineStart(s: string): (next: nat)
    requires FirstBreak(s) < |s|
    ensures FirstBreak(s) < next <= |s|
  {
    var i := FirstBreak(s);
    if s[i] == '\r' && i + 1 < |s| && s[i + 1] == '\n' then i + 2 else i + 1
  }

  /** One step of `splitlines` on a text with a break, and what it contributes to the non-blank lines. */
  lemma SplitLinesStep(s: string)
    requires s != [] && FirstBreak(s) < |s|
    ensures SplitLines(s) == [s[..FirstBreak(s)]] + SplitLines(s[NextLineStart(s)..])
    ensures NonBlankLines(s) == StripLines([s[..FirstBreak(s)]]) + NonBlankLines(s[NextLineStart(s)..])
  {
    StripLinesConcat([s[..FirstBreak(s)]], SplitLines(s[NextLineStart(s)..]));
  }

  /** A text with a non-whitespace character is not blank. */
  lemma NotBlankAt(s: string, k: nat)
    requires k < |s| && s[k] !in Whitespace
    ensures !IsBlank(s)
  {
    StripCharsEmptyIff(s, Whitespace);
  }

  /** The characters `splitlines` consumes at a break are whitespace. */
  lemma BreakIsSpace(s: string)
    requires FirstBreak(s) < |s|
    ensures forall j | FirstBreak(s) <= j < NextLineStart(s) :: s[j] in Whitespace
  {
  }

  /** A message that is not blank has at least one non-blank line. */
  lemma {:induction false} NonBlankHasLine(s: string)
    requires !IsBlank(s)
    ensures NonBlankLines(s) != []
    decreases |s|
  {
    StripCharsEmptyIff(s, Whitespace);
    var k :| 0 <= k < |s| && s[k] !in Whitespace;
    var i := FirstBreak(s);
    if i == |s| {
      assert SplitLines(s) == [s];
    } else {
      var next := NextLineStart(s);
      SplitLinesStep(s);
      if k < i {
        assert s[..i][k] == s[k];
        StripCharsEmptyIff(s[..i], Whitespace);
        assert StripLines([s[..i]]) == [Strip(s[..i])];
      } else {
        BreakIsSpace(s);
        assert k >= next;
        assert s[next..][k - next] == s[k];
        NotBlankAt(s[next..], k - next);
        NonBlankHasLine(s[next..]);
      }
    }
  }

  /** A message that is blank has no non-blank line. */
  lemma {:induction false} BlankHasNoLines(s: string)
    requires IsBlank(s)
    ensures NonBlankLines(s) == []
    decreases |s|
  {
    StripCharsEmptyIff(s, Whitespace);
    if s != [] {
      var i := FirstBreak(s);
      if i == |s| {
        assert SplitLines(s) == [s];
      } else {
        var next := NextLineStart(s);
        SplitLinesStep(s);
        StripCharsEmptyIff(s[..i], Whitespace);
        var r := s[next..];
        assert forall k | 0 <= k < |r| :: r[k] == s[next + k];
        StripCharsEmptyIff(r, Whitespace);
        BlankHasNoLines(r);
      }
    }
  }

  lemma FirstBreakUnique(s: string, n: nat)
    requires n <= |s| && (n < |s| ==> s[n] in LineBreaks)
    requires forall j | 0 <= j < n :: s[j] !in LineBreaks
    ensures FirstBreak(s) == n
  {
  }

  predicate NoBreaks(s: string) {
    forall j | 0 <= j < |s| :: s[j] !in LineBreaks
  }

  /** A non-empty piece without line breaks is one line. */
  lemma SplitSingle(a: string)
    requires a != [] && NoBreaks(a)
    ensures SplitLines(a) == [a]
  {
    FirstBreakUnique(a, |a|);
  }

  /** A piece without line breaks followed by "\n" is the first line; splitting continues after it. */
  lemma SplitCons(a: string, rest: string)
    requires NoBreaks(a)
    ensures SplitLines(a + "\n" + rest) == [a] + SplitLines(rest)
  {
    var s := a + "\n" + rest;
    FirstBreakUnique(s, |a|);
    assert s[..|a|] == a;
    assert s[|a| + 1..] == rest;
  }

  // ----- digits, affixes, numbers -----------------------------------------------

  predicate IsDigit(c: char) { '0' <= c <= '9' }

  /** `"".join(ch for ch in s if ch.isdigit())`. */
  function Digits(s: string): (r: string)
    ensures |r| <= |s|
    ensures forall i | 0 <= i < |r| :: IsDigit(r[i])
  {
    if s == [] then [] else (if IsDigit(s[0]) then [s[0]] else []) + Digits(s[1..])
  }

  lemma {:induction false} DigitsConcat(a: string, b: string)
    ensures Digits(a + b) == Digits(a) + Digits(b)
    decreases |a|
  {
    if a == [] {
      assert a + b == b;
    } else {
      assert (a + b)[1..] == a[1..] + b;
      DigitsConcat(a[1..], b);
    }
  }

  /** A string made only of digits is its own digit projection. */
  lemma {:induction false} DigitsOfDigits(s: string)
    requires forall i | 0 <= i < |s| :: IsDigit(s[i])
    ensures Digits(s) == s
    decreases |s|
  {
    if s != [] {
      DigitsOfDigits(s[1..]);
      assert s == [s[0]] + s[1..];
    }
  }

  predicate StartsWith(s: string, prefix: string) {
    prefix <= s
  }

  predicate EndsWith(s: string, suffix: string) {
    |suffix| <= |s| && s[|s| - |suffix|..] == suffix
  }

  lemma EndsWithPrepend(p: string, s: string, suffix: string)
    requires EndsWith(s, suffix)
    ensures EndsWith(p + s, suffix)
  {
    assert (p + s)[|p + s| - |suffix|..] == s[|s| - |suffix|..];
  }

  /** Python's `sub in s`. */
  predicate Contains(s: string, sub: string)
    decreases |s|
  {
    StartsWith(s, sub) || (s != [] && Contains(s[1..], sub))
  }

  /** SQL `s ILIKE '%' || sub || '%'` with no wildcard characters in `sub`. */
  predicate ContainsIgnoringCase(s: string, sub: string) {
    Contains(Lower(s), Lower(sub))
  }

  function DigitChar(d: nat): char
    requires d < 10
  {
    ('0' as int + d) as char
  }

  /** Python's `str(n)` for a natural number. */
  function NatToString(n: nat): (r: string)
    ensures r != [] && forall i | 0 <= i < |r| :: IsDigit(r[i])
  {
    if n < 10 then [DigitChar(n)] else NatToString(n / 10) + [DigitChar(n % 10)]
  }
}
