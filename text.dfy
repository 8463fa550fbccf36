/**
  The string operations the Python code relies on, over `seq<char>`:
  `str.lower` (ASCII letters only, as SQLite's `lower()`), `str.strip`,
  `in` on strings, `find`/`rfind`, `split`, `join`, lexicographic `<=`,
  decimal formatting and `int()` parsing.
 */
module Text {

  import opened Wrappers

  predicate IsDigit(c: char) { '0' <= c <= '9' }

  predicate IsAsciiAlnum(c: char) { IsDigit(c) || 'A' <= c <= 'Z' || 'a' <= c <= 'z' }

  /** A precomposed Hangul syllable, the class `가-힣` of the source's regular expressions. */
  predicate IsHangulSyllable(c: char) { '가' <= c <= '힣' }

  /** The character class `[0-9A-Za-z가-힣]` used by the term extractor. */
  predicate IsTermChar(c: char) { IsAsciiAlnum(c) || IsHangulSyllable(c) }

  /** Python's whitespace (`str.isspace`, `\s`, what `strip()` removes). */
  predicate IsSpace(c: char) {
    c == ' ' || '\t' <= c <= '\r' || '\U{1C}' <= c <= '\U{1F}' || c == '\U{85}' || c == '\U{A0}'
    || c == '\U{1680}' || '\U{2000}' <= c <= '\U{200A}' || c == '\U{2028}' || c == '\U{2029}'
    || c == '\U{202F}' || c == '\U{205F}' || c == '\U{3000}'
  }

  /** The line boundaries of Python's `str.splitlines`. */
  predicate IsLineBreak(c: char) {
    '\n' <= c <= '\r' || '\U{1C}' <= c <= '\U{1E}' || c == '\U{85}' || c == '\U{2028}' || c == '\U{2029}'
  }

  predicate IsUpper(c: char) { 'A' <= c <= 'Z' }

  function LowerChar(c: char): (r: char)
    ensures !IsUpper(r)
    ensures IsUpper(c) || r == c
  {
    if IsUpper(c) then (c as int + 32) as char else c
  }

  /** No ASCII upper-case letter occurs in `s`. */
  predicate IsLowered(s: string) { forall i :: 0 <= i < |s| ==> !IsUpper(s[i]) }

  function Lower(s: string): (r: string)
    ensures |r| == |s|
    ensures forall i :: 0 <= i < |s| ==> r[i] == LowerChar(s[i])
    ensures IsLowered(r)
  {
    seq(|s|, i requires 0 <= i < |s| => LowerChar(s[i]))
  }

  lemma LowerAppend(a: string, b: string)
    ensures Lower(a + b) == Lower(a) + Lower(b)
  {
    assert forall i :: 0 <= i < |a + b| ==> Lower(a + b)[i] == (Lower(a) + Lower(b))[i];
  }

  lemma LowerOfLowered(s: string)
    requires IsLowered(s)
    ensures Lower(s) == s
  {
    assert forall i :: 0 <= i < |s| ==> Lower(s)[i] == s[i];
  }

  /** Lower-casing twice is lower-casing once. */
  lemma LowerIdempotent(s: string)
    ensures Lower(Lower(s)) == Lower(s)
  {
    LowerOfLowered(Lower(s));
  }

  /** Lower-casing commutes with slicing. */
  lemma LowerSlice(s: string, i: int, j: int)
    requires 0 <= i <= j <= |s|
    ensures Lower(s)[i..j] == Lower(s[i..j])
  {
    assert forall k :: 0 <= k < j - i ==> Lower(s)[i..j][k] == Lower(s[i..j])[k];
  }

  /** Lower-casing commutes with cutting a string in two. */
  lemma LowerSplit(s: string, n: int)
    requires 0 <= n <= |s|
    ensures Lower(s)[..n] == Lower(s[..n]) && Lower(s)[n..] == Lower(s[n..])
  {
    LowerSlice(s, 0, n);
    LowerSlice(s, n, |s|);
    assert s[0..n] == s[..n] && s[n..|s|] == s[n..];
  }

  /** Lower-casing neither makes nor removes whitespace. */
  lemma SpaceOfLower(c: char)
    ensures IsSpace(LowerChar(c)) <==> IsSpace(c)
  {
  }

  // ---------------------------------------------------------------- strip

  function LStrip(s: string): (r: string)
    ensures |r| <= |s| && r == s[|s| - |r|..]
    ensures forall i :: 0 <= i < |s| - |r| ==> IsSpace(s[i])
    ensures r != [] ==> !IsSpace(r[0])
  {
    if s != [] && IsSpace(s[0]) then LStrip(s[1..]) else s
  }

  function RStrip(s: string): (r: string)
    ensures |r| <= |s| && r == s[..|r|]
    ensures forall i :: |r| <= i < |s| ==> IsSpace(s[i])
    ensures r != [] ==> !IsSpace(r[|r| - 1])
  {
    if s != [] && IsSpace(s[|s| - 1]) then RStrip(s[..|s| - 1]) else s
  }

  /** `r` is the slice of `s` starting at `i`, with only whitespace before and after it. */
  predicate TrimmedAt(s: string, r: string, i: int) {
    0 <= i <= |s| - |r| && r == s[i..i + |r|]
    && (forall k :: 0 <= k < i ==> IsSpace(s[k]))
    && (forall k :: i + |r| <= k < |s| ==> IsSpace(s[k]))
  }

  /** Python's `str.strip()`: what is left after removing the whitespace at both ends; it
      neither starts nor ends with whitespace (`StripSlice` says it is a slice of `s`). */
  function Strip(s: string): (r: string)
    ensures |r| <= |s|
    ensures r != [] ==> !IsSpace(r[0]) && !IsSpace(r[|r| - 1])
  {
    RStrip(LStrip(s))
  }

  /** `strip()` gives a slice of `s` with only whitespace outside it. */
  lemma StripSlice(s: string)
    ensures exists i :: TrimmedAt(s, Strip(s), i)
  {
    var l := LStrip(s);
    assert TrimmedAt(s, Strip(s), |s| - |l|);
  }

  /** A string with no whitespace at either end is its own strip. */
  lemma StripOfTrimmed(s: string)
    requires s == [] || (!IsSpace(s[0]) && !IsSpace(s[|s| - 1]))
    ensures Strip(s) == s
  {
  }

  lemma StripLeadingSpace(c: char, s: string)
    requires IsSpace(c)
    ensures Strip([c] + s) == Strip(s)
  {
    assert ([c] + s)[1..] == s;
  }

  /** One blank before a trimmed string is all that `strip()` removes. */
  lemma StripOneLeadingSpace(c: char, s: string, t: string)
    requires IsSpace(c) && t == [c] + s
    requires s != [] && !IsSpace(s[0]) && !IsSpace(s[|s| - 1])
    ensures Strip(t) == s
  {
    StripLeadingSpace(c, s);
    StripOfTrimmed(s);
  }

  /** `strip()` gives the empty string exactly when every character is whitespace. */
  lemma {:induction false} StripEmptyIff(s: string)
    ensures Strip(s) == [] <==> forall i :: 0 <= i < |s| ==> IsSpace(s[i])
  {
    var l := LStrip(s);
    if l == [] {
    } else {
      assert !IsSpace(l[0]);
      assert RStrip(l) != [];
      assert !IsSpace(s[|s| - |l|]);
    }
  }

  /** `s.lower().strip() == s.strip().lower()`, one end at a time. */
  lemma {:induction false} LStripLower(s: string)
    ensures LStrip(Lower(s)) == Lower(LStrip(s))
    decreases |s|
  {
    if s != [] {
      var t := Lower(s);
      SpaceOfLower(s[0]);
      LowerHead(s);
      if IsSpace(s[0]) {
        LStripLower(s[1..]);
        LStripSpace(t);
      } else {
        LStripNoSpace(t);
        LStripNoSpace(s);
      }
    }
  }

  lemma {:induction false} RStripLower(s: string)
    ensures RStrip(Lower(s)) == Lower(RStrip(s))
    decreases |s|
  {
    if s != [] {
      var t := Lower(s);
      SpaceOfLower(s[|s| - 1]);
      LowerLast(s);
      if IsSpace(s[|s| - 1]) {
        RStripLower(s[..|s| - 1]);
        RStripSpace(t);
      } else {
        RStripNoSpace(t);
        RStripNoSpace(s);
      }
    }
  }

  lemma LowerHead(s: string)
    requires s != []
    ensures Lower(s)[0] == LowerChar(s[0]) && Lower(s)[1..] == Lower(s[1..])
  {
    LowerSlice(s, 1, |s|);
  }

  lemma LowerLast(s: string)
    requires s != []
    ensures Lower(s)[|s| - 1] == LowerChar(s[|s| - 1]) && Lower(s)[..|s| - 1] == Lower(s[..|s| - 1])
  {
    LowerSlice(s, 0, |s| - 1);
  }

  lemma LStripSpace(t: string)
    requires t != [] && IsSpace(t[0])
    ensures LStrip(t) == LStrip(t[1..])
  {
  }

  lemma LStripNoSpace(t: string)
    requires t != [] && !IsSpace(t[0])
    ensures LStrip(t) == t
  {
  }

  lemma RStripSpace(t: string)
    requires t != [] && IsSpace(t[|t| - 1])
    ensures RStrip(t) == RStrip(t[..|t| - 1])
  {
  }

  lemma RStripNoSpace(t: string)
    requires t != [] && !IsSpace(t[|t| - 1])
    ensures RStrip(t) == t
  {
  }

  lemma StripLower(s: string)
    ensures Strip(Lower(s)) == Lower(Strip(s))
  {
    LStripLower(s);
    RStripLower(LStrip(s));
  }

  // ---------------------------------------------------------------- search

  predicate StartsWith(s: string, prefix: string) { |prefix| <= |s| && s[..|prefix|] == prefix }

  predicate EndsWith(s: string, suffix: string) { |suffix| <= |s| && s[|s| - |suffix|..] == suffix }

  predicate ContainsAt(text: string, pat: string, i: int) {
    0 <= i <= |text| - |pat| && text[i..i + |pat|] == pat
  }

  /** Python's `pat in text`. */
  predicate Contains(text: string, pat: string) {
    exists i | 0 <= i <= |text| - |pat| :: ContainsAt(text, pat, i)
  }

  lemma ContainsIn(text: string, pat: string, i: int)
    requires ContainsAt(text, pat, i)
    ensures Contains(text, pat)
  {
  }

  /** Adding text on either side keeps every occurrence. */
  lemma ContainsExtend(a: string, text: string, b: string, pat: string)
    requires Contains(text, pat)
    ensures Contains(a + text + b, pat)
  {
    var i :| 0 <= i <= |text| - |pat| && ContainsAt(text, pat, i);
    assert (a + text + b)[|a| + i..|a| + i + |pat|] == text[i..i + |pat|];
    ContainsIn(a + text + b, pat, |a| + i);
  }

  function FindFrom(s: string, pat: string, i: nat): (r: int)
    requires i <= |s| + 1
    ensures r == -1 || (i <= r && ContainsAt(s, pat, r))
    ensures r == -1 ==> forall j :: i <= j ==> !ContainsAt(s, pat, j)
    ensures r != -1 ==> forall j :: i <= j < r ==> !ContainsAt(s, pat, j)
    decreases |s| + 1 - i
  {
    if i + |pat| > |s| then -1
    else if s[i..i + |pat|] == pat then i
    else FindFrom(s, pat, i + 1)
  }

  /** Python's `s.find(pat)`: the first index of `pat`, or -1. */
  function Find(s: string, pat: string): (r: int)
    ensures r == -1 <==> !Contains(s, pat)
    ensures r != -1 ==> ContainsAt(s, pat, r) && forall j :: 0 <= j < r ==> !ContainsAt(s, pat, j)
  {
    FindFrom(s, pat, 0)
  }

  /** Python's `s.rfind(c)` for one character: its last index, or -1. */
  function RFindChar(s: string, c: char): (r: int)
    ensures r == -1 <==> c !in s
    ensures r != -1 ==> 0 <= r < |s| && s[r] == c && c !in s[r + 1..]
  {
    if s == [] then -1
    else if s[|s| - 1] == c then |s| - 1
    else
      assert s == s[..|s| - 1] + [s[|s| - 1]];
      RFindChar(s[..|s| - 1], c)
  }

  // ---------------------------------------------------------------- split and join

  /** Python's `s.split(sep)` for a one-character separator. */
  function Split(s: string, sep: char): (r: seq<string>)
    ensures |r| >= 1
    ensures forall k :: 0 <= k < |r| ==> sep !in r[k]
  {
    if s == [] then [""]
    else
      var rest := Split(s[1..], sep);
      if s[0] == sep then [""] + rest else [[s[0]] + rest[0]] + rest[1..]
  }

  /** The pieces between line boundaries. Unlike `str.splitlines` this keeps the empty
      pieces after a final boundary and inside `\r\n`; every caller drops blank lines. */
  function SplitLines(s: string): (r: seq<string>)
    ensures |r| >= 1
  {
    if s == [] then [""]
    else
      var rest := SplitLines(s[1..]);
      if IsLineBreak(s[0]) then [""] + rest else [[s[0]] + rest[0]] + rest[1..]
  }

  /** Python's `sep.join(parts)`. */
  function Join(parts: seq<string>, sep: string): string
  {
    if |parts| == 0 then ""
    else if |parts| == 1 then parts[0]
    else parts[0] + sep + Join(parts[1..], sep)
  }

  /** A join begins with its first part. */
  lemma JoinStartsWith(parts: seq<string>, sep: string)
    requires parts != []
    ensures StartsWith(Join(parts, sep), parts[0])
  {
    if |parts| > 1 {
      assert (parts[0] + sep + Join(parts[1..], sep))[..|parts[0]|] == parts[0];
    }
  }

  /** A join of two or more parts ends with the separator and the last part. */
  lemma {:induction false} JoinEndsWith(parts: seq<string>, sep: string)
    requires |parts| >= 2
    ensures EndsWith(Join(parts, sep), sep + parts[|parts| - 1])
  {
    var tail := sep + parts[|parts| - 1];
    var rest := Join(parts[1..], sep);
    if |parts| == 2 {
      assert parts[1..] == [parts[1]];
      assert rest == parts[1];
      assert Join(parts, sep) == parts[0] + tail;
      SuffixOfConcat(parts[0], tail, tail);
    } else {
      JoinEndsWith(parts[1..], sep);
      assert parts[1..][|parts[1..]| - 1] == parts[|parts| - 1];
      SuffixOfConcat(parts[0] + sep, rest, tail);
    }
  }

  /** A suffix of the second half is a suffix of the concatenation. */
  lemma SuffixOfConcat<T>(a: seq<T>, b: seq<T>, s: seq<T>)
    requires |s| <= |b| && b[|b| - |s|..] == s
    ensures |s| <= |a + b| && (a + b)[|a + b| - |s|..] == s
  {
    assert (a + b)[|a + b| - |s|..] == b[|b| - |s|..];
  }

  lemma {:induction false} SplitAround(a: string, sep: char, b: string)
    ensures Split(a + [sep] + b, sep) == Split(a, sep) + Split(b, sep)
    decreases |a|
  {
    if a == [] {
      assert [sep] + b == a + [sep] + b;
    } else {
      assert (a + [sep] + b)[1..] == a[1..] + [sep] + b;
      SplitAround(a[1..], sep, b);
    }
  }

  lemma SplitNoSep(s: string, sep: char)
    requires sep !in s
    ensures Split(s, sep) == [s]
  {
    if s != [] {
      SplitNoSep(s[1..], sep);
      assert [s[0]] + s[1..] == s;
    }
  }

  // ---------------------------------------------------------------- line structure

  /** No line boundary occurs in `s`. */
  predicate NoBreak(s: string) { forall k :: 0 <= k < |s| ==> !IsLineBreak(s[k]) }

  lemma NoBreakConcat(a: string, b: string)
    requires NoBreak(a) && NoBreak(b)
    ensures NoBreak(a + b)
  {
    forall k | 0 <= k < |a + b| ensures !IsLineBreak((a + b)[k]) {
      if k < |a| { assert (a + b)[k] == a[k]; } else { assert (a + b)[k] == b[k - |a|]; }
    }
  }

  /** Stripping cuts a slice out, so it adds no line boundary. */
  lemma StripNoBreak(s: string)
    requires NoBreak(s)
    ensures NoBreak(Strip(s))
  {
    var r := Strip(s);
    StripSlice(s);
    var i :| TrimmedAt(s, r, i);
    forall k | 0 <= k < |r| ensures !IsLineBreak(r[k]) { assert r[k] == s[i + k]; }
  }

  /** Splitting a boundary-free string gives boundary-free pieces. */
  lemma {:induction false} SplitNoBreak(s: string, sep: char)
    requires NoBreak(s)
    ensures forall k :: 0 <= k < |Split(s, sep)| ==> NoBreak(Split(s, sep)[k])
  {
    if s != [] {
      SplitNoBreak(s[1..], sep);
      var rest := Split(s[1..], sep);
      var r := Split(s, sep);
      if s[0] == sep {
        forall k | 0 <= k < |r| ensures NoBreak(r[k]) { if k > 0 { assert r[k] == rest[k - 1]; } }
      } else {
        var first := [s[0]] + rest[0];
        NoBreakConcat([s[0]], rest[0]);
        forall k | 0 <= k < |r| ensures NoBreak(r[k]) { if k > 0 { assert r[k] == rest[k]; } }
      }
    }
  }

  /** A join of boundary-free parts with a boundary-free separator has no boundary. */
  lemma {:induction false} JoinNoBreak(parts: seq<string>, sep: string)
    requires NoBreak(sep)
    requires forall k :: 0 <= k < |parts| ==> NoBreak(parts[k])
    ensures NoBreak(Join(parts, sep))
  {
    if |parts| > 1 {
      JoinNoBreak(parts[1..], sep);
      NoBreakConcat(parts[0], sep);
      NoBreakConcat(parts[0] + sep, Join(parts[1..], sep));
    }
  }

  /** No piece that `splitlines` returns holds a line boundary. */
  lemma {:induction false} SplitLinesNoBreak(s: string)
    ensures forall k :: 0 <= k < |SplitLines(s)| ==> NoBreak(SplitLines(s)[k])
  {
    if s != [] {
      SplitLinesNoBreak(s[1..]);
      var rest := SplitLines(s[1..]);
      var r := SplitLines(s);
      if IsLineBreak(s[0]) {
        forall k | 0 <= k < |r| ensures NoBreak(r[k]) { if k > 0 { assert r[k] == rest[k - 1]; } }
      } else {
        NoBreakConcat([s[0]], rest[0]);
        forall k | 0 <= k < |r| ensures NoBreak(r[k]) { if k > 0 { assert r[k] == rest[k]; } }
      }
    }
  }

  /** A string without a boundary is a single line. */
  lemma {:induction false} SplitLinesOne(a: string)
    requires NoBreak(a)
    ensures SplitLines(a) == [a]
  {
    if a != [] {
      assert NoBreak(a[1..]) by {
        forall k | 0 <= k < |a[1..]| ensures !IsLineBreak(a[1..][k]) { assert a[1..][k] == a[k + 1]; }
      }
      SplitLinesOne(a[1..]);
      assert [a[0]] + a[1..] == a;
    }
  }

  /** A boundary-free line, a newline and the rest split into that line and the rest's lines. */
  lemma {:induction false} SplitLinesCons(a: string, b: string)
    requires NoBreak(a)
    ensures SplitLines(a + "\n" + b) == [a] + SplitLines(b)
  {
    var s := a + "\n" + b;
    if a == [] {
      assert s == "\n" + b && s[1..] == b;
    } else {
      assert s[0] == a[0] && s[1..] == a[1..] + "\n" + b;
      assert NoBreak(a[1..]) by {
        forall k | 0 <= k < |a[1..]| ensures !IsLineBreak(a[1..][k]) { assert a[1..][k] == a[k + 1]; }
      }
      SplitLinesCons(a[1..], b);
      assert [a[0]] + a[1..] == a;
    }
  }

  /** `"\n".join(lines).splitlines()` gives the lines back when none holds a boundary. */
  lemma {:induction false} SplitLinesOfJoin(lines: seq<string>)
    requires lines != []
    requires forall k :: 0 <= k < |lines| ==> NoBreak(lines[k])
    ensures SplitLines(Join(lines, "\n")) == lines
  {
    if |lines| == 1 {
      SplitLinesOne(lines[0]);
    } else {
      SplitLinesOfJoin(lines[1..]);
      SplitLinesCons(lines[0], Join(lines[1..], "\n"));
      assert lines == [lines[0]] + lines[1..];
    }
  }

  // ---------------------------------------------------------------- ordering

  /** Python's `a <= b` on strings: lexicographic by code point. */
  predicate StrLe(a: string, b: string) {
    a == [] || (b != [] && (a[0] < b[0] || (a[0] == b[0] && StrLe(a[1..], b[1..]))))
  }

  lemma {:induction false} StrLeTotal(a: string, b: string)
    ensures StrLe(a, b) || StrLe(b, a)
  {
    if a != [] && b != [] && a[0] == b[0] {
      StrLeTotal(a[1..], b[1..]);
    }
  }

  lemma {:induction false} StrLeTrans(a: string, b: string, c: string)
    requires StrLe(a, b) && StrLe(b, c)
    ensures StrLe(a, c)
  {
    if a != [] && b != [] && c != [] && a[0] == b[0] == c[0] {
      StrLeTrans(a[1..], b[1..], c[1..]);
    }
  }

  lemma {:induction false} StrLeAntisym(a: string, b: string)
    requires StrLe(a, b) && StrLe(b, a)
    ensures a == b
  {
    if a != [] && b != [] {
      StrLeAntisym(a[1..], b[1..]);
      assert a == [a[0]] + a[1..] && b == [b[0]] + b[1..];
    }
  }

  // ---------------------------------------------------------------- numbers

  function DigitChar(d: nat): (c: char)
    requires d < 10
    ensures IsDigit(c)
  {
    ('0' as int + d) as char
  }

  predicate AllDigits(s: string) { forall i :: 0 <= i < |s| ==> IsDigit(s[i]) }

  /** Python's `str(n)` for a natural number. */
  function NatToString(n: nat): (r: string)
    ensures |r| >= 1 && AllDigits(r)
  {
    if n < 10 then [DigitChar(n)] else NatToString(n / 10) + [DigitChar(n % 10)]
  }

  /** Python's `str(i)`. */
  function IntToString(i: int): string {
    if i < 0 then "-" + NatToString(-i) else NatToString(i)
  }

  /** The value of a string of decimal digits (leading zeros allowed). */
  function DigitsValue(s: string): nat
    requires AllDigits(s)
  {
    if s == [] then 0 else DigitsValue(s[..|s| - 1]) * 10 + (s[|s| - 1] as int - '0' as int)
  }

  lemma {:induction false} DigitsValueOfNatToString(n: nat)
    ensures DigitsValue(NatToString(n)) == n
  {
    var s := NatToString(n);
    if n >= 10 {
      DigitsValueOfNatToString(n / 10);
      assert s[..|s| - 1] == NatToString(n / 10);
    }
  }

  /** Digits in groups separated by single underscores, as Python's `int()` accepts. */
  predicate IsDigitGroups(s: string) {
    s != [] && IsDigit(s[0]) && IsDigit(s[|s| - 1])
    && (forall i :: 0 <= i < |s| ==> IsDigit(s[i]) || s[i] == '_')
    && (forall i :: 0 <= i < |s| - 1 ==> !(s[i] == '_' && s[i + 1] == '_'))
  }

  function RemoveUnderscores(s: string): (r: string)
    requires forall i :: 0 <= i < |s| ==> IsDigit(s[i]) || s[i] == '_'
    ensures AllDigits(r)
  {
    if s == [] then [] else (if s[0] == '_' then [] else [s[0]]) + RemoveUnderscores(s[1..])
  }

  lemma RemoveUnderscoresOfDigits(s: string)
    requires AllDigits(s)
    ensures RemoveUnderscores(s) == s
  {
  }

  /** Python's `int(s)` on an already stripped string: `None` where it raises `ValueError`.
      Non-ASCII decimal digits, which `int()` also accepts, are not modelled. */
  function ParseInt(s: string): (r: Option<int>)
    ensures r.Some? ==> s != []
  {
    if s != [] && (s[0] == '+' || s[0] == '-') then
      if IsDigitGroups(s[1..]) then
        var v: int := DigitsValue(RemoveUnderscores(s[1..]));
        Some(if s[0] == '-' then -v else v)
      else None
    else if IsDigitGroups(s) then Some(DigitsValue(RemoveUnderscores(s)))
    else None
  }

  /** Parsing inverts formatting: `int(str(i)) == i`. */
  lemma ParseIntOfIntToString(i: int)
    ensures ParseInt(IntToString(i)) == Some(i)
  {
    var n: nat := if i < 0 then -i else i;
    var d := NatToString(n);
    DigitsValueOfNatToString(n);
    RemoveUnderscoresOfDigits(d);
    assert IsDigitGroups(d);
    if i < 0 {
      assert ("-" + d)[1..] == d;
    } else {
      assert !(d[0] == '+' || d[0] == '-');
    }
  }
}
