/** The JavaScript string operations the handlers rely on: `trim`,
    `split(/\s+/)`, `join(" ")`, `startsWith`, case-insensitive substring
    search, and decimal numbers in and out of text. Whitespace and case
    folding are ASCII only; numeric tokens are non-empty strings of decimal
    digits. */
module Text {

  predicate IsSpace(c: char) {
    c == ' ' || c == '\t' || c == '\n' || c == '\r' || c == '\U{000B}' || c == '\U{000C}'
  }

  /** A token of `split(/\s+/)`: non-empty and free of whitespace. */
  ghost predicate IsWord(w: string) {
    |w| > 0 && forall k :: 0 <= k < |w| ==> !IsSpace(w[k])
  }

  ghost predicate AllWords(ws: seq<string>) {
    forall i :: 0 <= i < |ws| ==> IsWord(ws[i])
  }

  function TrimLeft(s: string): (r: string)
    ensures |r| <= |s| && r == s[|s| - |r|..]
    ensures forall k :: 0 <= k < |s| - |r| ==> IsSpace(s[k])
    ensures r == [] || !IsSpace(r[0])
  {
    if s != [] && IsSpace(s[0]) then
      var r := TrimLeft(s[1..]);
      assert s[1..][|s| - 1 - |r|..] == s[|s| - |r|..];
      assert forall k :: 1 <= k < |s| - |r| ==> s[k] == s[1..][k - 1];
      r
    else s
  }

  function TrimRight(s: string): (r: string)
    ensures |r| <= |s| && r == s[..|r|]
    ensures forall k :: |r| <= k < |s| ==> IsSpace(s[k])
    ensures r == [] || !IsSpace(r[|r| - 1])
  {
    if s != [] && IsSpace(s[|s| - 1]) then TrimRight(s[..|s| - 1]) else s
  }

  /** Neither end of `s` is whitespace. */
  predicate Trimmed(s: string) {
    s == [] || (!IsSpace(s[0]) && !IsSpace(s[|s| - 1]))
  }

  /** `r` is `s` with `i` characters of whitespace cut off its front and
      the rest of what follows `r` in `s`, all whitespace, cut off its end. */
  ghost predicate CutAt(s: string, r: string, i: nat) {
    && i + |r| <= |s| && s[i..i + |r|] == r
    && (forall k :: 0 <= k < i ==> IsSpace(s[k]))
    && (forall k :: i + |r| <= k < |s| ==> IsSpace(s[k]))
  }

  /** `String.prototype.trim`: `s` with the whitespace at both of its ends
      cut off, so a contiguous part of `s` that neither starts nor ends with
      whitespace, and is empty exactly when `s` is all whitespace. */
  function Trim(s: string): (r: string)
    ensures Trimmed(r)
    ensures r == [] <==> forall k :: 0 <= k < |s| ==> IsSpace(s[k])
    ensures |r| <= |s|
    ensures exists i :: CutAt(s, r, i)
  {
    var r := TrimRight(TrimLeft(s));
    TrimCuts(s);
    assert r == [] ==> TrimLeft(s) == [];
    r
  }

  /** Trimming the front and then the end cuts `s` where the front's
      whitespace ends. */
  lemma {:induction false} TrimCuts(s: string)
    ensures CutAt(s, TrimRight(TrimLeft(s)), |s| - |TrimLeft(s)|)
  {
    CutOfSuffixPrefix(s, TrimLeft(s), TrimRight(TrimLeft(s)));
  }

  /** A prefix `r` of a suffix `l` of `s` is a cut of `s` when what the two
      steps dropped is whitespace. */
  lemma {:induction false} CutOfSuffixPrefix(s: string, l: string, r: string)
    requires |l| <= |s| && l == s[|s| - |l|..]
    requires |r| <= |l| && r == l[..|r|]
    requires forall k :: 0 <= k < |s| - |l| ==> IsSpace(s[k])
    requires forall k :: |r| <= k < |l| ==> IsSpace(l[k])
    ensures CutAt(s, r, |s| - |l|)
  {
    var i := |s| - |l|;
    assert r == s[i..i + |r|];
    forall k | i + |r| <= k < |s| ensures IsSpace(s[k]) {
      assert s[k] == l[k - i];
    }
  }

  /** Length of the longest whitespace-free prefix of `t`. */
  function WordLength(t: string): (n: nat)
    ensures n <= |t|
    ensures forall k :: 0 <= k < n ==> !IsSpace(t[k])
    ensures n == |t| || IsSpace(t[n])
  {
    if t == [] || IsSpace(t[0]) then 0 else 1 + WordLength(t[1..])
  }

  /** The whitespace-separated tokens of `s`; on a trimmed non-empty string
      this is `s.split(/\s+/)`. */
  function Tokens(s: string): (ws: seq<string>)
    ensures AllWords(ws)
    decreases |s|
  {
    var t := TrimLeft(s);
    if t == [] then []
    else
      var n := WordLength(t);
      [t[..n]] + Tokens(t[n..])
  }

  /** `s.split(/\s+/)` for a string that has already been trimmed (neither
      end is whitespace): the empty string splits into one empty token. */
  function SplitWhitespace(s: string): (ws: seq<string>)
    ensures s != [] && !IsSpace(s[0]) ==> |ws| > 0 && AllWords(ws)
    ensures s == [] ==> ws == [""]
  {
    if s == [] then [""] else Tokens(s)
  }

  /** `ws.join(" ")`. */
  function JoinSpace(ws: seq<string>): (r: string)
    ensures |ws| > 0 ==> |ws[0]| <= |r| && r[..|ws[0]|] == ws[0]
  {
    if |ws| == 0 then ""
    else if |ws| == 1 then ws[0]
    else ws[0] + " " + JoinSpace(ws[1..])
  }

  lemma {:induction false} TokensOfSpacePrefixed(c: char, s: string)
    requires IsSpace(c)
    ensures Tokens([c] + s) == Tokens(s)
  {
    assert ([c] + s)[1..] == s;
  }

  lemma {:induction false} WordLengthOfWord(w: string, rest: string)
    requires IsWord(w)
    requires rest == [] || IsSpace(rest[0])
    ensures WordLength(w + rest) == |w|
    decreases |w|
  {
    if |w| > 1 {
      assert (w + rest)[1..] == w[1..] + rest;
      WordLengthOfWord(w[1..], rest);
    }
  }

  lemma {:induction false} TokensOfWordThenSpace(w: string, rest: string)
    requires IsWord(w)
    ensures Tokens(w + ([' '] + rest)) == [w] + Tokens(rest)
  {
    var j := w + ([' '] + rest);
    WordLengthOfWord(w, [' '] + rest);
    assert TrimLeft(j) == j;
    assert j[..|w|] == w;
    assert j[|w|..] == [' '] + rest;
    TokensOfSpacePrefixed(' ', rest);
  }

  /** Joining words with single spaces and splitting again gives the words
      back. */
  lemma {:induction false} TokensOfJoin(ws: seq<string>)
    requires AllWords(ws)
    ensures Tokens(JoinSpace(ws)) == ws
    decreases |ws|
  {
    if |ws| == 0 {
    } else if |ws| == 1 {
      var w := ws[0];
      WordLengthOfWord(w, []);
      assert w + [] == w;
      assert w[|w|..] == [];
    } else {
      var w := ws[0];
      var rest := JoinSpace(ws[1..]);
      var j := w + ([' '] + rest);
      assert JoinSpace(ws) == j;
      TokensOfWordThenSpace(w, rest);
      TokensOfJoin(ws[1..]);
      assert [w] + ws[1..] == ws;
    }
  }

  /** No line break in `s`. */
  predicate OneLine(s: string) {
    '\n' !in s
  }

  ghost predicate AllOneLine(ls: seq<string>) {
    forall i :: 0 <= i < |ls| ==> OneLine(ls[i])
  }

  lemma AllOneLineAppend(a: seq<string>, b: seq<string>)
    requires AllOneLine(a) && AllOneLine(b)
    ensures AllOneLine(a + b)
  {
    assert forall i :: |a| <= i < |a + b| ==> (a + b)[i] == b[i - |a|];
  }

  /** `ls.join("\n")`. */
  function JoinLines(ls: seq<string>): string {
    if |ls| == 0 then "" else if |ls| == 1 then ls[0] else ls[0] + "\n" + JoinLines(ls[1..])
  }

  /** Length of the longest prefix of `s` without a line break. */
  function LineLength(s: string): (n: nat)
    ensures n <= |s|
    ensures forall k :: 0 <= k < n ==> s[k] != '\n'
    ensures n == |s| || s[n] == '\n'
  {
    if s == [] || s[0] == '\n' then 0 else 1 + LineLength(s[1..])
  }

  /** `s.split("\n")`: the pieces between line breaks, so the empty string
      is one empty line. */
  function SplitLines(s: string): (ls: seq<string>)
    ensures |ls| >= 1 && AllOneLine(ls)
    decreases |s|
  {
    var n := LineLength(s);
    if n == |s| then [s] else [s[..n]] + SplitLines(s[n + 1..])
  }

  lemma {:induction false} LineLengthOfLine(l: string, rest: string)
    requires OneLine(l)
    requires rest == [] || rest[0] == '\n'
    ensures LineLength(l + rest) == |l|
    decreases |l|
  {
    if |l| > 0 {
      assert (l + rest)[1..] == l[1..] + rest;
      LineLengthOfLine(l[1..], rest);
    }
  }

  /** Joining one-line texts with line breaks and splitting the result at
      its line breaks gives the texts back. */
  lemma {:induction false} SplitLinesOfJoin(ls: seq<string>)
    requires |ls| >= 1 && AllOneLine(ls)
    ensures SplitLines(JoinLines(ls)) == ls
    decreases |ls|
  {
    var l := ls[0];
    if |ls| == 1 {
      LineLengthOfLine(l, []);
      assert l + [] == l;
    } else {
      var rest := JoinLines(ls[1..]);
      var j := l + ("\n" + rest);
      assert JoinLines(ls) == j;
      LineLengthOfLine(l, "\n" + rest);
      assert j[..|l|] == l;
      assert j[|l| + 1..] == rest;
      SplitLinesOfJoin(ls[1..]);
      assert [l] + ls[1..] == ls;
    }
  }

  function StartsWith(s: string, prefix: string): (b: bool)
    ensures b <==> |prefix| <= |s| && s[..|prefix|] == prefix
  {
    |prefix| <= |s| && s[..|prefix|] == prefix
  }

  function LowerChar(c: char): char {
    if 'A' <= c <= 'Z' then (c as int + 32) as char else c
  }

  predicate IsUpper(c: char) {
    'A' <= c <= 'Z'
  }

  /** ASCII lower-casing: no upper-case letter is left, an upper-case letter
      becomes its lower-case partner 32 code points on, and every other
      character stays as it is. */
  function Lower(s: string): (r: string)
    ensures |r| == |s|
    ensures forall k :: 0 <= k < |s| ==> r[k] == LowerChar(s[k])
    ensures forall k :: 0 <= k < |r| ==> !IsUpper(r[k])
    ensures forall k :: 0 <= k < |s| && IsUpper(s[k]) ==> r[k] as int == s[k] as int + 32
    ensures forall k :: 0 <= k < |s| && !IsUpper(s[k]) ==> r[k] == s[k]
  {
    seq(|s|, k requires 0 <= k < |s| => LowerChar(s[k]))
  }

  /** Lower-casing twice is lower-casing once. */
  lemma {:induction false} LowerIdempotent(s: string)
    ensures Lower(Lower(s)) == Lower(s)
  {
    var l := Lower(s);
    assert forall k :: 0 <= k < |l| ==> LowerChar(l[k]) == l[k];
  }

  /** Two strings that differ at most in the case of their letters. */
  predicate SameIgnoringCase(a: string, b: string) {
    && |a| == |b|
    && forall k :: 0 <= k < |a| ==>
         || a[k] == b[k]
         || (IsUpper(a[k]) && b[k] as int == a[k] as int + 32)
         || (IsUpper(b[k]) && a[k] as int == b[k] as int + 32)
  }

  lemma {:induction false} SameIgnoringCaseLower(a: string, b: string)
    requires SameIgnoringCase(a, b)
    ensures Lower(a) == Lower(b)
  {
    forall k | 0 <= k < |a| ensures Lower(a)[k] == Lower(b)[k] {
      assert a[k] == b[k] || IsUpper(a[k]) || IsUpper(b[k]);
    }
  }

  /** `needle` occurs in `hay` as a contiguous piece. */
  predicate Contains(hay: string, needle: string) {
    exists i :: 0 <= i <= |hay| - |needle| && OccursAt(hay, needle, i)
  }

  predicate OccursAt(hay: string, needle: string, i: nat)
    requires i + |needle| <= |hay|
  {
    hay[i..i + |needle|] == needle
  }

  /** `name ILIKE '%' || needle || '%'`, without the wildcards `%` and `_`
      inside `needle`. */
  predicate ContainsIgnoringCase(hay: string, needle: string) {
    Contains(Lower(hay), Lower(needle))
  }

  /** The match does not see the case of the letters of either the name or
      the searched text: `/gekocht MELK` finds `Havermelk`. */
  lemma {:induction false} MatchIgnoresCase(hay: string, hay': string, needle: string, needle': string)
    requires SameIgnoringCase(hay, hay') && SameIgnoringCase(needle, needle')
    ensures ContainsIgnoringCase(hay, needle) <==> ContainsIgnoringCase(hay', needle')
  {
    SameIgnoringCaseLower(hay, hay');
    SameIgnoringCaseLower(needle, needle');
  }

  /** The piece of `hay` at `i` is `needle` up to the case of its letters. */
  predicate MatchesAt(hay: string, needle: string, i: nat) {
    i + |needle| <= |hay| && SameIgnoringCase(hay[i..i + |needle|], needle)
  }

  /** Strings with the same lower-casing differ at most in letter case. */
  lemma {:induction false} LowerSameIgnoringCase(a: string, b: string)
    requires Lower(a) == Lower(b)
    ensures SameIgnoringCase(a, b)
  {
    forall k | 0 <= k < |a|
      ensures || a[k] == b[k]
              || (IsUpper(a[k]) && b[k] as int == a[k] as int + 32)
              || (IsUpper(b[k]) && a[k] as int == b[k] as int + 32)
    {
      assert LowerChar(a[k]) == LowerChar(b[k]);
    }
  }

  /** A needle occurs in a text, ignoring case, exactly when some piece of
      the text is the needle up to the case of its letters. */
  lemma {:induction false} ContainsIgnoringCaseAt(hay: string, needle: string)
    ensures ContainsIgnoringCase(hay, needle) <==> exists i: nat :: MatchesAt(hay, needle, i)
  {
    var l := Lower(hay);
    if i: nat :| MatchesAt(hay, needle, i) {
      SameIgnoringCaseLower(hay[i..i + |needle|], needle);
      assert l[i..i + |needle|] == Lower(hay[i..i + |needle|]);
      assert OccursAt(l, Lower(needle), i);
    }
    if ContainsIgnoringCase(hay, needle) {
      var i :| 0 <= i <= |l| - |Lower(needle)| && OccursAt(l, Lower(needle), i);
      assert l[i..i + |needle|] == Lower(hay[i..i + |needle|]);
      LowerSameIgnoringCase(hay[i..i + |needle|], needle);
      assert MatchesAt(hay, needle, i);
    }
  }

  predicate IsDigit(c: char) {
    '0' <= c <= '9'
  }

  /** `!isNaN(Number(token))`, restricted to decimal digit strings. */
  predicate IsNumeric(s: string) {
    |s| > 0 && forall k :: 0 <= k < |s| ==> IsDigit(s[k])
  }

  /** `parseInt(token)` of a decimal digit string. */
  function DecimalValue(s: string): nat
    requires forall k :: 0 <= k < |s| ==> IsDigit(s[k])
  {
    if s == [] then 0
    else
      assert IsDigit(s[|s| - 1]);
      DecimalValue(s[..|s| - 1]) * 10 + (s[|s| - 1] as int - '0' as int)
  }

  function DigitChar(d: nat): (c: char)
    requires d < 10
    ensures IsDigit(c) && c as int - '0' as int == d
  {
    ('0' as int + d) as char
  }

  /** The decimal rendering of a natural number, as a template literal
      prints it. */
  function NatToString(n: nat): string {
    if n < 10 then [DigitChar(n)] else NatToString(n / 10) + [DigitChar(n % 10)]
  }

  /** Reading the rendering of `n` back as a decimal gives `n`. */
  lemma {:induction false} NatToStringRoundTrip(n: nat)
    ensures IsNumeric(NatToString(n))
    ensures DecimalValue(NatToString(n)) == n
  {
    if n >= 10 {
      NatToStringRoundTrip(n / 10);
      var s := NatToString(n);
      assert s[..|s| - 1] == NatToString(n / 10);
    }
  }

  function IntToString(i: int): string {
    if i < 0 then "-" + NatToString(-i) else NatToString(i)
  }

  /** A rendered number is a single line. */
  lemma IntToStringOneLine(i: int)
    ensures OneLine(IntToString(i))
  {
    NatToStringRoundTrip(if i < 0 then -i else i);
  }
}
