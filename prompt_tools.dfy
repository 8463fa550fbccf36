/**
  The line helpers, environment clamps and prompt-budget heuristics of
  src/ontology_llm/tools/prompt_tools.py. The compressor itself is module Compression.
 */
module PromptTools {

  import opened Wrappers
  import opened Text
  import opened Seqs
  import opened Ontology

  // ================================================================ environment clamps

  /** `get_env_int` over the variable's value (`None` when unset): the default when unset
      or not an integer, otherwise the parsed value raised to `minimum`. */
  function GetEnvInt(raw: Option<string>, default: int, minimum: int): (r: int)
    ensures raw.Some? && ParseInt(Strip(raw.value)).Some? ==> r >= minimum
    ensures raw.Some? && ParseInt(Strip(raw.value)).Some? ==> r == Max(ParseInt(Strip(raw.value)).value, minimum)
    ensures raw.None? || ParseInt(Strip(raw.value)).None? ==> r == default
  {
    if raw.None? then default
    else
      match ParseInt(Strip(raw.value))
      case None => default
      case Some(value) => Max(value, minimum)
  }

  /** A formatted integer reads back as itself, clamped to the minimum. */
  lemma GetEnvIntOfFormatted(v: int, default: int, minimum: int)
    ensures GetEnvInt(Some(IntToString(v)), default, minimum) == Max(v, minimum)
  {
    var s := IntToString(v);
    ParseIntOfIntToString(v);
    if s != [] {
      assert s[0] == '-' || IsDigit(s[0]);
      assert IsDigit(s[|s| - 1]);
    }
    StripOfTrimmed(s);
  }

  /** Leading blanks, as in `MAX_FACTS=" 7"`, are ignored. */
  lemma GetEnvIntIgnoresLeadingSpace(c: char, s: string, default: int, minimum: int)
    requires IsSpace(c)
    ensures GetEnvInt(Some([c] + s), default, minimum) == GetEnvInt(Some(s), default, minimum)
  {
    StripLeadingSpace(c, s);
  }

  const BudgetModes: seq<string> := ["strict", "balanced"]

  /** `get_prompt_budget_mode` over the variable's value: unset means "balanced"; the
      trimmed, lower-cased value when it is a known mode, else "balanced". */
  function GetPromptBudgetMode(raw: Option<string>): (r: string)
    ensures r in BudgetModes
    ensures r == "strict" ==> raw.Some? && Lower(Strip(raw.value)) == "strict"
  {
    // An unset variable reads as "balanced", which trimming and lower-casing keep.
    var mode := if raw.None? then "balanced" else Lower(Strip(raw.value));
    if mode in BudgetModes then mode else "balanced"
  }

  /** Any spelling that trims and lower-cases to a known mode selects that mode. */
  lemma BudgetModeRecognised(s: string)
    requires Lower(Strip(s)) in BudgetModes
    ensures GetPromptBudgetMode(Some(s)) == Lower(Strip(s))
  {
  }

  /** A trimmed, lower-case value is its own normal form. */
  lemma NormalFormFixed(m: string)
    requires |m| >= 1 && !IsSpace(m[0]) && !IsSpace(m[|m| - 1])
    requires forall i :: 0 <= i < |m| ==> 'a' <= m[i] <= 'z'
    ensures Lower(Strip(m)) == m
  {
    StripOfTrimmed(m);
    LowerOfLowered(m);
  }

  /** A mode already normalised reads back as itself. */
  lemma BudgetModeCanonical(m: string)
    requires m in BudgetModes
    ensures GetPromptBudgetMode(Some(m)) == m
  {
    NormalFormFixed(m);
  }

  // ================================================================ dedupe_fact_properties

  const PropsMarker: string := "props=["

  /** One item of `[p.strip() for p in parts if p.strip()]`. */
  function KeepStripped(p: string): seq<string> {
    if Strip(p) != "" then [Strip(p)] else []
  }

  /** `[p.strip() for p in parts if p.strip()]`. */
  function StrippedNonBlank(parts: seq<string>): seq<string> {
    if parts == [] then [] else KeepStripped(parts[0]) + StrippedNonBlank(parts[1..])
  }

  /** A property item as the list comprehension leaves it: non-blank, trimmed, no `;`. */
  predicate IsPropItem(p: string) { p != "" && Strip(p) == p && ';' !in p }

  predicate AllPropItems(ps: seq<string>) { forall k :: 0 <= k < |ps| ==> IsPropItem(ps[k]) }

  lemma StripIdempotent(s: string)
    ensures Strip(Strip(s)) == Strip(s)
  {
    StripOfTrimmed(Strip(s));
  }

  /** Stripping never adds a character. */
  lemma StripKeepsOut(s: string, c: char)
    requires c !in s
    ensures c !in Strip(s)
  {
    var l := LStrip(s);
    assert l == s[|s| - |l|..];
    var r := RStrip(l);
    assert r == l[..|r|];
  }

  lemma {:induction false} StrippedNonBlankAppend(a: seq<string>, b: seq<string>)
    ensures StrippedNonBlank(a + b) == StrippedNonBlank(a) + StrippedNonBlank(b)
  {
    if a != [] {
      assert (a + b)[0] == a[0];
      assert (a + b)[1..] == a[1..] + b;
      StrippedNonBlankAppend(a[1..], b);
      var k := KeepStripped(a[0]);
      assert StrippedNonBlank(a + b) == k + StrippedNonBlank(a[1..] + b);
      ConcatAssoc(k, StrippedNonBlank(a[1..]), StrippedNonBlank(b));
    } else {
      assert a + b == b;
    }
  }

  lemma ConcatAssoc<T>(x: seq<T>, y: seq<T>, z: seq<T>)
    ensures x + (y + z) == (x + y) + z
  {
  }

  /** Pieces free of `;` give property items. */
  lemma {:induction false} StrippedNonBlankItems(parts: seq<string>)
    requires forall k :: 0 <= k < |parts| ==> ';' !in parts[k]
    ensures AllPropItems(StrippedNonBlank(parts))
  {
    if parts != [] {
      StripKeepsOut(parts[0], ';');
      StripIdempotent(parts[0]);
      StrippedNonBlankItems(parts[1..]);
      var k := KeepStripped(parts[0]);
      assert AllPropItems(k);
      AllPropItemsAppend(k, StrippedNonBlank(parts[1..]));
    }
  }

  lemma AllPropItemsAppend(x: seq<string>, y: seq<string>)
    requires AllPropItems(x) && AllPropItems(y)
    ensures AllPropItems(x + y)
  {
    forall i | 0 <= i < |x + y|
      ensures IsPropItem((x + y)[i])
    {
      if i < |x| {
        assert (x + y)[i] == x[i];
      } else {
        assert (x + y)[i] == y[i - |x|];
      }
    }
  }

  /** The trimmed, non-blank `;`-separated items of a property list. */
  function PropItems(raw: string): (r: seq<string>)
    ensures AllPropItems(r)
  {
    StrippedNonBlankItems(Split(raw, ';'));
    StrippedNonBlank(Split(raw, ';'))
  }

  /** `dedupe_fact_properties`: inside the text between the first `props=[` and the last
      `]`, keep the first occurrence of each trimmed, non-blank `;` item, joined by "; ".
      A line without the marker, or without a `]` after it, comes back unchanged. */
  function DedupeFactProperties(line: string): string {
    var start := Find(line, PropsMarker);
    if start == -1 then line
    else
      var end := RFindChar(line, ']');
      if end <= start + |PropsMarker| then line
      else RewriteProps(line, start, end)
  }

  /** The line with the list between the marker at `start` and the `]` at `end` deduplicated. */
  function RewriteProps(line: string, start: int, end: int): string
    requires 0 <= start && start + |PropsMarker| < end < |line|
  {
    RenderProps(line[..start], Dedupe(PropItems(line[start + |PropsMarker|..end])), line[end + 1..])
  }

  /** A line with its property list written out as `props=[a; b]`. */
  function RenderProps(pre: string, items: seq<string>, suf: string): string {
    pre + PropsMarker + Join(items, "; ") + "]" + suf
  }

  /** The five pieces of a concatenation are found back at their offsets. */
  lemma ConcatPieces<T>(a: seq<T>, b: seq<T>, c: seq<T>, d: T, e: seq<T>)
    ensures var r := a + b + c + [d] + e;
      && |r| == |a| + |b| + |c| + 1 + |e|
      && r[..|a| + |b|] == a + b
      && r[..|a|] == a
      && r[|a| + |b|..|a| + |b| + |c|] == c
      && r[|a| + |b| + |c|] == d
      && r[|a| + |b| + |c| + 1..] == e
  {
    var r := a + b + c + [d] + e;
    assert r == (a + b) + (c + ([d] + e));
    assert (a + b)[..|a|] == a;
  }

  /** A line without the marker is left alone. */
  lemma DedupeWithoutMarker(line: string)
    requires !Contains(line, PropsMarker)
    ensures DedupeFactProperties(line) == line
  {
  }

  /** `find` sees the same first occurrence in a string that agrees up to its end. */
  lemma FindStable(s: string, t: string, pat: string)
    requires Find(s, pat) != -1
    requires |t| >= Find(s, pat) + |pat| && t[..Find(s, pat) + |pat|] == s[..Find(s, pat) + |pat|]
    ensures Find(t, pat) == Find(s, pat)
  {
    var i := Find(s, pat);
    assert t[i..i + |pat|] == s[i..i + |pat|];
    assert ContainsAt(t, pat, i);
    forall j | 0 <= j < i
      ensures !ContainsAt(t, pat, j)
    {
      assert !ContainsAt(s, pat, j);
      SliceOfPrefix(t, i + |pat|, j, j + |pat|);
      SliceOfPrefix(s, i + |pat|, j, j + |pat|);
    }
  }

  lemma SliceOfPrefix<T>(s: seq<T>, k: int, a: int, b: int)
    requires 0 <= a <= b <= k <= |s|
    ensures s[a..b] == s[..k][a..b]
  {
  }

  lemma ConsHeadTail<T>(x: seq<T>)
    requires x != []
    ensures [x[0]] + x[1..] == x
  {
  }

  /** A single property item is its own item list. */
  lemma PropItemsOfItem(d: string)
    requires IsPropItem(d)
    ensures PropItems(d) == [d]
  {
    SplitNoSep(d, ';');
    assert StrippedNonBlank([d]) == KeepStripped(d) + StrippedNonBlank([d][1..]);
    assert [d][1..] == [];
  }

  lemma SplitLeadingSpace(x: string)
    ensures Split(" " + x, ';') == [" " + Split(x, ';')[0]] + Split(x, ';')[1..]
  {
    assert (" " + x)[1..] == x;
  }

  lemma StrippedNonBlankCons(h: string, t: seq<string>)
    ensures StrippedNonBlank([h] + t) == KeepStripped(h) + StrippedNonBlank(t)
  {
    assert ([h] + t)[1..] == t;
  }

  lemma KeepStrippedLeadingSpace(h: string)
    ensures KeepStripped(" " + h) == KeepStripped(h)
  {
    StripLeadingSpace(' ', h);
  }

  /** A blank in front of the first piece does not change the items. */
  lemma PropItemsLeadingSpace(x: string)
    ensures StrippedNonBlank(Split(" " + x, ';')) == StrippedNonBlank(Split(x, ';'))
  {
    var tail := Split(x, ';');
    SplitLeadingSpace(x);
    StrippedNonBlankCons(" " + tail[0], tail[1..]);
    KeepStrippedLeadingSpace(tail[0]);
    StrippedNonBlankCons(tail[0], tail[1..]);
    ConsHeadTail(tail);
  }

  lemma JoinSemicolon(ds: seq<string>)
    requires |ds| >= 2
    ensures Join(ds, "; ") == ds[0] + [';'] + (" " + Join(ds[1..], "; "))
  {
  }

  /** Items on either side of a `;` are listed in order. */
  lemma PropItemsAround(a: string, b: string)
    ensures PropItems(a + [';'] + b) == PropItems(a) + PropItems(b)
  {
    SplitAround(a, ';', b);
    StrippedNonBlankAppend(Split(a, ';'), Split(b, ';'));
  }

  /** Splitting a "; "-joined list of property items gives them back. */
  lemma {:induction false} PropItemsOfJoin(ds: seq<string>)
    requires AllPropItems(ds)
    ensures PropItems(Join(ds, "; ")) == ds
  {
    if ds == [] {
      assert Split("", ';') == [""];
    } else if |ds| == 1 {
      PropItemsOfItem(ds[0]);
      assert Join(ds, "; ") == ds[0];
      ConsHeadTail(ds);
    } else {
      assert AllPropItems(ds[1..]);
      PropItemsOfJoin(ds[1..]);
      PropItemsOfJoinStep(ds);
    }
  }

  /** One more item in front of a list that splits back correctly. */
  lemma PropItemsOfJoinStep(ds: seq<string>)
    requires |ds| >= 2 && AllPropItems(ds)
    requires PropItems(Join(ds[1..], "; ")) == ds[1..]
    ensures PropItems(Join(ds, "; ")) == ds
  {
    var rest := Join(ds[1..], "; ");
    JoinSemicolon(ds);
    PropItemsAround(ds[0], " " + rest);
    PropItemsOfItem(ds[0]);
    PropItemsLeadingSpace(rest);
    ConsHeadTail(ds);
  }

  /** `rfind` of a character that occurs at `i` and nowhere after it. */
  lemma RFindCharAt(s: string, c: char, i: int)
    requires 0 <= i < |s| && s[i] == c && c !in s[i + 1..]
    ensures RFindChar(s, c) == i
  {
    assert s[i] in s;
    var r := RFindChar(s, c);
    assert forall x :: r < x < |s| ==> s[x] == s[r + 1..][x - r - 1];
    assert forall x :: i < x < |s| ==> s[x] == s[i + 1..][x - i - 1];
  }

  lemma DedupeKeepsItems(ps: seq<string>)
    requires AllPropItems(ps)
    ensures AllPropItems(Dedupe(ps))
  {
    var d := Dedupe(ps);
    forall k | 0 <= k < |d|
      ensures IsPropItem(d[k])
    {
      assert d[k] in ps;
    }
  }

  /** The rewriting case of `dedupe_fact_properties`, named by its two positions. */
  lemma DedupeAt(line: string, start: int, end: int)
    requires start != -1 && Find(line, PropsMarker) == start
    requires RFindChar(line, ']') == end && end > start + |PropsMarker|
    ensures DedupeFactProperties(line)
         == RenderProps(line[..start], Dedupe(PropItems(line[start + |PropsMarker|..end])), line[end + 1..])
  {
    assert DedupeFactProperties(line) == RewriteProps(line, start, end);
  }

  /** A line already in the form the function produces is a fixed point. */
  lemma {:induction false} DedupeOfRendered(pre: string, items: seq<string>, suf: string)
    requires AllPropItems(items) && NoDups(items)
    requires ']' !in suf
    requires Find(RenderProps(pre, items, suf), PropsMarker) == |pre|
    ensures DedupeFactProperties(RenderProps(pre, items, suf)) == RenderProps(pre, items, suf)
  {
    var r := RenderProps(pre, items, suf);
    var close := |pre| + |PropsMarker| + |Join(items, "; ")|;
    RenderedSlices(pre, items, suf);
    RFindCharAt(r, ']', close);
    if Join(items, "; ") != "" {
      assert DedupeFactProperties(r) == RewriteProps(r, |pre|, close);
      RewriteOfRendered(pre, items, suf, close);
    }
  }

  /** Rewriting the list of a rendered line whose items are distinct gives the line back. */
  lemma {:induction false} RewriteOfRendered(pre: string, items: seq<string>, suf: string, close: int)
    requires AllPropItems(items) && NoDups(items) && Join(items, "; ") != ""
    requires close == |pre| + |PropsMarker| + |Join(items, "; ")|
    ensures close < |RenderProps(pre, items, suf)|
    ensures RewriteProps(RenderProps(pre, items, suf), |pre|, close) == RenderProps(pre, items, suf)
  {
    var r := RenderProps(pre, items, suf);
    RenderedSlices(pre, items, suf);
    var body := r[|pre| + |PropsMarker|..close];
    assert body == Join(items, "; ");
    PropItemsOfJoin(items);
    DedupeOfNoDups(items);
    assert Dedupe(PropItems(body)) == items;
    RewriteOfParts(r, |pre|, close, pre, items, suf);
  }

  /** The rewrite puts back the pieces it took apart. */
  lemma RewriteOfParts(line: string, start: int, end: int, pre: string, items: seq<string>, suf: string)
    requires 0 <= start && start + |PropsMarker| < end < |line|
    requires line[..start] == pre && line[end + 1..] == suf
    requires Dedupe(PropItems(line[start + |PropsMarker|..end])) == items
    requires line == RenderProps(pre, items, suf)
    ensures RewriteProps(line, start, end) == line
  {
  }

  /** Where the marker, the list and the closing `]` sit in a rendered line. */
  lemma {:induction false} RenderedSlices(pre: string, items: seq<string>, suf: string)
    ensures |pre| + |PropsMarker| + |Join(items, "; ")| < |RenderProps(pre, items, suf)|
    ensures RenderProps(pre, items, suf)[|pre| + |PropsMarker| + |Join(items, "; ")|] == ']'
    ensures RenderProps(pre, items, suf)[..|pre|] == pre
    ensures RenderProps(pre, items, suf)[|pre| + |PropsMarker|..|pre| + |PropsMarker| + |Join(items, "; ")|]
         == Join(items, "; ")
    ensures RenderProps(pre, items, suf)[|pre| + |PropsMarker| + |Join(items, "; ")| + 1..] == suf
  {
    ConcatPieces(pre, PropsMarker, Join(items, "; "), ']', suf);
    assert RenderProps(pre, items, suf) == pre + PropsMarker + Join(items, "; ") + [']'] + suf;
  }

  lemma PrefixSplit<T>(s: seq<T>, i: int, j: int)
    requires 0 <= i <= j <= |s|
    ensures s[..j] == s[..i] + s[i..j]
  {
  }

  lemma DedupeRewriteStable(line: string, start: int, end: int)
    requires start != -1 && Find(line, PropsMarker) == start
    requires RFindChar(line, ']') == end && end > start + |PropsMarker|
    ensures DedupeFactProperties(DedupeFactProperties(line)) == DedupeFactProperties(line)
  {
    var m := |PropsMarker|;
    var items := Dedupe(PropItems(line[start + m..end]));
    var pre := line[..start];
    var suf := line[end + 1..];
    var r := RenderProps(pre, items, suf);
    DedupeAt(line, start, end);
    ConcatPieces(pre, PropsMarker, Join(items, "; "), ']', suf);
    PrefixSplit(line, start, start + m);
    FindStable(line, r, PropsMarker);
    DedupeKeepsItems(PropItems(line[start + m..end]));
    DedupeOfRendered(pre, items, suf);
  }

  /** Applying `dedupe_fact_properties` twice is the same as applying it once. */
  lemma DedupeFactPropertiesIdempotent(line: string)
    ensures DedupeFactProperties(DedupeFactProperties(line)) == DedupeFactProperties(line)
  {
    var start := Find(line, PropsMarker);
    var end := RFindChar(line, ']');
    if start != -1 && end > start + |PropsMarker| {
      DedupeRewriteStable(line, start, end);
    }
  }

  // ================================================================ clean lines

  /** A line as `_context_lines` leaves it: non-blank, trimmed and without a line boundary. */
  predicate CleanLine(l: string) { l != "" && Strip(l) == l && NoBreak(l) }

  /** The comprehension keeps only clean lines when no input holds a line boundary. */
  lemma {:induction false} StrippedNonBlankClean(parts: seq<string>)
    requires forall k :: 0 <= k < |parts| ==> NoBreak(parts[k])
    ensures forall l :: l in StrippedNonBlank(parts) ==> CleanLine(l)
  {
    if parts != [] {
      StrippedNonBlankClean(parts[1..]);
      StripIdempotent(parts[0]);
      StripNoBreak(parts[0]);
    }
  }

  /** Clean lines pass through the comprehension unchanged. */
  lemma {:induction false} StrippedNonBlankOfClean(parts: seq<string>)
    requires forall k :: 0 <= k < |parts| ==> CleanLine(parts[k])
    ensures StrippedNonBlank(parts) == parts
  {
    if parts != [] {
      StrippedNonBlankOfClean(parts[1..]);
      assert parts == [parts[0]] + parts[1..];
    }
  }

  lemma SliceNoBreak(s: string, i: int, j: int)
    requires NoBreak(s) && 0 <= i <= j <= |s|
    ensures NoBreak(s[i..j])
  {
    forall k | 0 <= k < j - i ensures !IsLineBreak(s[i..j][k]) { assert s[i..j][k] == s[i + k]; }
  }

  /** A property list written between boundary-free pieces that do not begin or end with
      whitespace is a clean line, with the marker right after the prefix. */
  lemma RenderPropsClean(pre: string, items: seq<string>, suf: string)
    requires NoBreak(pre) && NoBreak(suf)
    requires forall k :: 0 <= k < |items| ==> NoBreak(items[k])
    requires pre == [] || !IsSpace(pre[0])
    requires suf == [] || !IsSpace(suf[|suf| - 1])
    ensures CleanLine(RenderProps(pre, items, suf))
    ensures ContainsAt(RenderProps(pre, items, suf), PropsMarker, |pre|)
  {
    JoinNoBreak(items, "; ");
    var j := Join(items, "; ");
    NoBreakConcat(pre, PropsMarker);
    NoBreakConcat(pre + PropsMarker, j);
    NoBreakConcat(pre + PropsMarker + j, "]");
    NoBreakConcat(pre + PropsMarker + j + "]", suf);
    var out := pre + PropsMarker + j + "]" + suf;
    ConcatPieces(pre, PropsMarker, j, ']', suf);
    assert out[|pre|..|pre| + |PropsMarker|] == PropsMarker;
    assert !IsSpace(out[0]) by {
      if pre != [] { assert out[0] == pre[0]; } else { assert out[0] == 'p'; }
    }
    assert !IsSpace(out[|out| - 1]) by {
      if suf != [] { assert out[|out| - 1] == suf[|suf| - 1]; }
    }
    StripOfTrimmed(out);
  }

  /** The items of a boundary-free list have no boundary either. */
  lemma PropItemsNoBreak(raw: string)
    requires NoBreak(raw)
    ensures forall k :: 0 <= k < |Dedupe(PropItems(raw))| ==> NoBreak(Dedupe(PropItems(raw))[k])
  {
    SplitNoBreak(raw, ';');
    StrippedNonBlankClean(Split(raw, ';'));
    var items := Dedupe(PropItems(raw));
    forall k | 0 <= k < |items| ensures NoBreak(items[k]) { assert items[k] in PropItems(raw); }
  }

  /** Rewriting the list between `start` and `end` of a clean line gives a clean line with
      the marker still at `start`. */
  lemma RewritePropsClean(line: string, start: int, end: int)
    requires CleanLine(line)
    requires 0 <= start && start + |PropsMarker| < end < |line|
    ensures CleanLine(RewriteProps(line, start, end))
    ensures ContainsAt(RewriteProps(line, start, end), PropsMarker, start)
  {
    var pre := line[..start];
    var raw := line[start + |PropsMarker|..end];
    var suf := line[end + 1..];
    SliceNoBreak(line, 0, start);
    SliceNoBreak(line, start + |PropsMarker|, end);
    SliceNoBreak(line, end + 1, |line|);
    PropItemsNoBreak(raw);
    assert !IsSpace(line[0]) && !IsSpace(line[|line| - 1]) by {
      assert Strip(line) == line;
    }
    assert pre != [] ==> pre[0] == line[0];
    assert suf != [] ==> suf[|suf| - 1] == line[|line| - 1];
    RenderPropsClean(pre, Dedupe(PropItems(raw)), suf);
  }

  /** Rewriting the property list of a clean line gives a clean line; when it changes the
      line, the marker is still at the offset where `find` saw it. */
  lemma DedupeFactPropertiesClean(line: string)
    requires CleanLine(line)
    ensures CleanLine(DedupeFactProperties(line))
    ensures DedupeFactProperties(line) == line
         || ContainsAt(DedupeFactProperties(line), PropsMarker, Find(line, PropsMarker))
  {
    var start := Find(line, PropsMarker);
    var end := RFindChar(line, ']');
    if start != -1 && end > start + |PropsMarker| {
      RewritePropsClean(line, start, end);
    }
  }

  // ================================================================ line ids

  /** `fact_id_from_line`: the first space-delimited token after "- ", trimmed;
      `None` for a line not starting with "- " or an empty token. */
  function FactIdFromLine(line: string): (r: Option<string>)
    ensures r.Some? ==> StartsWith(line, "- ") && r.value != ""
  {
    if !StartsWith(line, "- ") then None
    else
      var token := Strip(Split(line[2..], ' ')[0]);
      if token == "" then None else Some(token)
  }

  /** `relation_source_from_line`: the text between "- " and the first " -[", trimmed;
      `None` without the prefix, without " -[", or for an empty source. */
  function RelationSourceFromLine(line: string): (r: Option<string>)
    ensures r.Some? ==> StartsWith(line, "- ") && Contains(line[2..], " -[") && r.value != ""
  {
    if !StartsWith(line, "- ") then None
    else
      var payload := line[2..];
      if !Contains(payload, " -[") then None
      else
        var source := Strip(payload[..Find(payload, " -[")]);
        if source == "" then None else Some(source)
  }

  /** The id of a rendered fact line reads back when it is a single trimmed word. */
  lemma FactIdOfFactLine(row: FactRow)
    requires row.id != "" && ' ' !in row.id && Strip(row.id) == row.id
    ensures FactIdFromLine(FactLine(row)) == Some(row.id)
  {
    var rest := "(" + row.className + ") label='" + row.labelText + "' props=[" + row.props + "]";
    var line := FactLine(row);
    assert line[..2] == "- ";
    assert line[2..] == row.id + [' '] + rest;
    SplitAround(row.id, ' ', rest);
    SplitNoSep(row.id, ' ');
  }

  /** No " -[" starts inside a source that has none and does not end in a blank. */
  lemma NoArrowBefore(src: string, rest: string, j: nat)
    requires src != [] && !IsSpace(src[|src| - 1]) && !Contains(src, " -[")
    requires j < |src|
    ensures !ContainsAt(src + " -[" + rest, " -[", j)
  {
    var t := src + " -[" + rest;
    var n := |src|;
    if j + 3 <= n {
      assert !ContainsAt(src, " -[", j);
      assert t[j..j + 3] == src[j..j + 3];
    } else if j == n - 1 {
      assert src[n - 1] != ' ';
      assert t[j..j + 3][0] == src[n - 1];
    } else {
      assert j == n - 2;
      assert t[j..j + 3][2] == ' ';
    }
  }

  /** The source of a rendered relation line reads back when it has no surrounding blanks
      and no " -[" of its own. */
  lemma RelationSourceOfRelationLine(e: Relation)
    requires e.source != "" && !IsSpace(e.source[0]) && !IsSpace(e.source[|e.source| - 1])
    requires !Contains(e.source, " -[")
    ensures RelationSourceFromLine(RelationLine(e)) == Some(e.source)
  {
    var line := RelationLine(e);
    var n := |e.source|;
    var payload := line[2..];
    assert line[..2] == "- ";
    assert payload == e.source + " -[" + e.kind + "]-> " + e.target;
    assert ContainsAt(payload, " -[", n);
    var rest := e.kind + "]-> " + e.target;
    assert payload == e.source + " -[" + rest;
    forall j | 0 <= j < n
      ensures !ContainsAt(payload, " -[", j)
    {
      NoArrowBefore(e.source, rest, j);
    }
    assert Find(payload, " -[") == n;
    assert payload[..n] == e.source;
    StripOfTrimmed(e.source);
  }

  // ================================================================ token heuristic

  /** Length of the run of ASCII letters and digits at the start of `s`. */
  function AlnumRun(s: string): (n: nat)
    ensures n <= |s|
    ensures s != [] && IsAsciiAlnum(s[0]) ==> n >= 1
  {
    if s != [] && IsAsciiAlnum(s[0]) then 1 + AlnumRun(s[1..]) else 0
  }

  /** The number of matches of `[0-9A-Za-z]+|[가-힣]|[^\s]`: one per maximal run of
      ASCII letters and digits, one per other non-blank character. */
  function RegexTokenCount(s: string): (n: nat)
    ensures n <= |s|
    decreases |s|
  {
    if s == [] then 0
    else if IsAsciiAlnum(s[0]) then 1 + RegexTokenCount(s[AlnumRun(s)..])
    else if IsSpace(s[0]) then RegexTokenCount(s[1..])
    else 1 + RegexTokenCount(s[1..])
  }

  /** The heuristic branch of `estimate_token_len`: the match count, at least 1. */
  function EstimateTokenLen(text: string): (n: int)
    ensures 1 <= n <= Max(1, |text|)
  {
    Max(1, RegexTokenCount(text))
  }

  /** Blank text has no matches; any non-blank character makes at least one. */
  lemma {:induction false} TokenCountZeroIff(s: string)
    ensures RegexTokenCount(s) == 0 <==> forall i :: 0 <= i < |s| ==> IsSpace(s[i])
    decreases |s|
  {
    if s != [] && IsSpace(s[0]) {
      TokenCountZeroIff(s[1..]);
      assert forall i :: 1 <= i < |s| ==> s[i] == s[1..][i - 1];
    }
  }

  lemma {:induction false} AlnumRunSpace(a: string, b: string)
    requires forall i :: 0 <= i < |a| ==> IsAsciiAlnum(a[i])
    requires b != [] && IsSpace(b[0])
    ensures AlnumRun(a + b) == |a|
    decreases |a|
  {
    if a != [] {
      assert (a + b)[1..] == a[1..] + b;
      AlnumRunSpace(a[1..], b);
    } else {
      assert !IsAsciiAlnum(b[0]);
    }
  }

  /** Texts separated by a blank count their tokens independently. */
  lemma {:induction false} TokenCountSpaceJoin(a: string, b: string)
    ensures RegexTokenCount(a + " " + b) == RegexTokenCount(a) + RegexTokenCount(b)
    decreases |a|
  {
    var s := a + " " + b;
    if a == [] {
      assert s[1..] == b;
    } else if IsAsciiAlnum(a[0]) {
      var k := AlnumRun(a);
      assert a[..k] + a[k..] == a;
      assert forall i :: 0 <= i < k ==> IsAsciiAlnum(a[..k][i]) by {
        assert forall i :: 0 <= i < k ==> a[..k][i] == a[i];
        AlnumRunPrefix(a);
      }
      if k < |a| {
        assert !IsAsciiAlnum(a[k]) by { AlnumRunPrefix(a); }
        AlnumRunStop(a[..k], a[k..] + " " + b);
        assert s == a[..k] + (a[k..] + " " + b);
        AlnumRunStop(a[..k], a[k..]);
        assert AlnumRun(s) == k;
        assert s[k..] == a[k..] + " " + b;
        TokenCountSpaceJoin(a[k..], b);
      } else {
        assert a[..k] == a;
        AlnumRunSpace(a, " " + b);
        assert s == a + (" " + b);
        assert s[k..] == " " + b;
        assert (" " + b)[1..] == b;
        assert a[k..] == [];
      }
    } else {
      assert s[1..] == a[1..] + " " + b;
      TokenCountSpaceJoin(a[1..], b);
    }
  }

  lemma {:induction false} AlnumRunPrefix(s: string)
    ensures forall i :: 0 <= i < AlnumRun(s) ==> IsAsciiAlnum(s[i])
    ensures AlnumRun(s) < |s| ==> !IsAsciiAlnum(s[AlnumRun(s)])
    decreases |s|
  {
    if s != [] && IsAsciiAlnum(s[0]) {
      AlnumRunPrefix(s[1..]);
    }
  }

  lemma {:induction false} AlnumRunStop(a: string, b: string)
    requires forall i :: 0 <= i < |a| ==> IsAsciiAlnum(a[i])
    requires b != [] && !IsAsciiAlnum(b[0])
    ensures AlnumRun(a + b) == |a|
    decreases |a|
  {
    if a != [] {
      assert (a + b)[1..] == a[1..] + b;
      AlnumRunStop(a[1..], b);
    }
  }

  // ================================================================ log_prompt_budget

  /** The three token counts `estimate_prompt_budget` reports. */
  datatype BudgetTokens = BudgetTokens(question: int, context: int, prompt: int)

  function EstimatePromptTokens(question: string, context: string, prompt: string): (t: BudgetTokens)
    ensures t.question >= 1 && t.context >= 1 && t.prompt >= 1
  {
    BudgetTokens(EstimateTokenLen(question), EstimateTokenLen(context), EstimateTokenLen(prompt))
  }

  /** The warning of `log_prompt_budget`: any of the three counts above the threshold. */
  predicate BudgetWarning(t: BudgetTokens, threshold: int) {
    t.question > threshold || t.context > threshold || t.prompt > threshold
  }

  /** No warning for texts no longer than a positive threshold, since a count never
      exceeds the text's length. */
  lemma ShortTextsNoWarning(question: string, context: string, prompt: string, threshold: int)
    requires threshold >= 1 && |question| <= threshold && |context| <= threshold && |prompt| <= threshold
    ensures !BudgetWarning(EstimatePromptTokens(question, context, prompt), threshold)
  {
  }

  /** A threshold below 1 always warns, since every count is at least 1. */
  lemma ZeroThresholdWarns(question: string, context: string, prompt: string, threshold: int)
    requires threshold < 1
    ensures BudgetWarning(EstimatePromptTokens(question, context, prompt), threshold)
  {
  }

  /** Raising the threshold can only silence the warning. */
  lemma WarningMonotone(t: BudgetTokens, low: int, high: int)
    requires low <= high && BudgetWarning(t, high)
    ensures BudgetWarning(t, low)
  {
  }
}
