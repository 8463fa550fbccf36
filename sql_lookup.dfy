/**
  Term extraction, candidate ranking and the plain fact renderer of
  src/ontology_llm/tools/sql_tools.py, over the in-memory store of module Ontology.
 */
module SqlLookup {

  import opened Wrappers
  import opened Text
  import opened Seqs
  import opened Sorting
  import opened Ontology

  // ================================================================ extract_query_terms

  predicate AllTermChars(s: string) { forall i :: 0 <= i < |s| ==> IsTermChar(s[i]) }

  /** Length of the run of term characters at the start of `s`. */
  function RunLength(s: string): (n: nat)
    ensures n <= |s|
    ensures forall i :: 0 <= i < n ==> IsTermChar(s[i])
    ensures n < |s| ==> !IsTermChar(s[n])
    ensures s != [] && IsTermChar(s[0]) ==> n >= 1
  {
    if s == [] || !IsTermChar(s[0]) then 0 else 1 + RunLength(s[1..])
  }

  /** `re.findall(r"[0-9A-Za-z가-힣]+", s)`: the maximal runs of term characters, left to right. */
  function TermRuns(s: string): (runs: seq<string>)
    ensures forall k :: 0 <= k < |runs| ==> |runs[k]| >= 1 && AllTermChars(runs[k])
    decreases |s|
  {
    if s == [] then []
    else if !IsTermChar(s[0]) then TermRuns(s[1..])
    else
      var n := RunLength(s);
      [s[..n]] + TermRuns(s[n..])
  }

  /** The lower-cased runs of at least two characters. */
  function LongRuns(runs: seq<string>): (r: seq<string>)
    requires forall k :: 0 <= k < |runs| ==> AllTermChars(runs[k])
    ensures forall k :: 0 <= k < |r| ==> |r[k]| >= 2 && AllTermChars(r[k]) && IsLowered(r[k])
  {
    if runs == [] then []
    else
      LowerKeepsTermChars(runs[0]);
      (if |runs[0]| >= 2 then [Lower(runs[0])] else []) + LongRuns(runs[1..])
  }

  lemma LowerKeepsTermChars(s: string)
    requires AllTermChars(s)
    ensures AllTermChars(Lower(s))
  {
  }

  /** The elements that are not the empty string (`t for t in terms if t`). */
  function NonEmpty(ts: seq<string>): (r: seq<string>)
    ensures |r| <= |ts|
    ensures forall t :: t in r <==> t in ts && t != ""
  {
    if ts == [] then [] else (if ts[0] != "" then [ts[0]] else []) + NonEmpty(ts[1..])
  }

  /** Dropping the empty strings keeps the order of first occurrences. */
  lemma {:induction false} NonEmptyFirstIndex(ts: seq<string>, x: string, y: string)
    requires x in NonEmpty(ts) && y in NonEmpty(ts)
    requires FirstIndex(NonEmpty(ts), x) < FirstIndex(NonEmpty(ts), y)
    ensures FirstIndex(ts, x) < FirstIndex(ts, y)
  {
    var h := ts[0];
    var tail := ts[1..];
    if h == "" {
      assert NonEmpty(ts) == NonEmpty(tail);
      NonEmptyFirstIndex(tail, x, y);
    } else if x != h {
      NonEmptyFirstIndexStep(ts, x, y);
      NonEmptyFirstIndex(tail, x, y);
    }
  }

  /** Past a leading non-empty string other than `x`, both first occurrences move back one. */
  lemma NonEmptyFirstIndexStep(ts: seq<string>, x: string, y: string)
    requires ts != [] && ts[0] != "" && ts[0] != x
    requires x in NonEmpty(ts) && y in NonEmpty(ts)
    requires FirstIndex(NonEmpty(ts), x) < FirstIndex(NonEmpty(ts), y)
    ensures x in NonEmpty(ts[1..]) && y in NonEmpty(ts[1..])
    ensures FirstIndex(NonEmpty(ts[1..]), x) < FirstIndex(NonEmpty(ts[1..]), y)
  {
    var rest := NonEmpty(ts[1..]);
    assert NonEmpty(ts) == [ts[0]] + rest;
    FirstIndexCons(ts[0], rest, x);
    FirstIndexCons(ts[0], rest, y);
  }

  /** The kept terms are in the order of their first occurrence in the raw list. */
  lemma KeptTermsOrder(raw: seq<string>)
    ensures var kept := Dedupe(NonEmpty(raw));
      forall i, j :: 0 <= i < j < |kept| ==> FirstIndex(raw, kept[i]) < FirstIndex(raw, kept[j])
  {
    var ne := NonEmpty(raw);
    var kept := Dedupe(ne);
    DedupeFirstOccurrence(ne);
    forall i, j | 0 <= i < j < |kept| ensures FirstIndex(raw, kept[i]) < FirstIndex(raw, kept[j]) {
      NonEmptyFirstIndex(raw, kept[i], kept[j]);
    }
  }

  lemma NonEmptyOfNoDups(ts: seq<string>)
    requires NoDups(ts)
    ensures NoDups(NonEmpty(ts))
  {
    if ts != [] {
      NonEmptyOfNoDups(ts[1..]);
      var rest := NonEmpty(ts[1..]);
      assert ts[0] !in ts[1..] by {
        forall j | 0 <= j < |ts[1..]| ensures ts[1..][j] != ts[0] {
          assert ts[1..][j] == ts[1 + j];
        }
      }
      if ts[0] != "" {
        forall i, j | 0 <= i < j < |[ts[0]] + rest| ensures ([ts[0]] + rest)[i] != ([ts[0]] + rest)[j] {
          if i == 0 {
            assert ([ts[0]] + rest)[j] == rest[j - 1];
          }
        }
      }
    }
  }

  /** The term list before de-duplication: the whole trimmed, lower-cased question,
      then the lower-cased runs of two or more term characters. */
  function RawTerms(question: string): seq<string> {
    [Lower(Strip(question))] + LongRuns(TermRuns(question))
  }

  function ExtractQueryTerms(question: string): (terms: seq<string>)
    ensures |terms| >= 1
    ensures NoDups(terms)
    ensures forall k :: 0 <= k < |terms| ==> IsLowered(terms[k])
    ensures terms == [""] || forall k :: 0 <= k < |terms| ==> terms[k] != ""
    ensures forall t :: t in terms && t != "" <==> t in RawTerms(question) && t != ""
  {
    var raw := RawTerms(question);
    RawTermsLowered(question);
    KeptTerms(raw);
    var kept := Dedupe(NonEmpty(raw));
    assert IsLowered("");
    if kept == [] then [""] else kept
  }

  /** The non-empty terms of a lower-cased list, without repeats. */
  lemma KeptTerms(raw: seq<string>)
    requires forall t :: t in raw ==> IsLowered(t)
    ensures var kept := Dedupe(NonEmpty(raw));
      && NoDups(kept)
      && (forall k :: 0 <= k < |kept| ==> IsLowered(kept[k]) && kept[k] != "")
      && (forall t :: t in kept <==> t in raw && t != "")
  {
    var kept := Dedupe(NonEmpty(raw));
    assert forall k :: 0 <= k < |kept| ==> kept[k] in raw;
  }

  lemma RawTermsLowered(question: string)
    ensures forall t :: t in RawTerms(question) ==> IsLowered(t)
  {
    var runs := LongRuns(TermRuns(question));
    forall t | t in runs ensures IsLowered(t) {
      var k :| 0 <= k < |runs| && runs[k] == t;
    }
    assert IsLowered(Lower(Strip(question)));
  }

  /** The extractor's output starts with the trimmed, lower-cased question when that is
      not empty; every later term is a lower-cased run of two or more term characters; and
      the terms keep the order of their first occurrence in the raw list. */
  lemma ExtractQueryTermsShape(question: string)
    ensures var terms := ExtractQueryTerms(question);
      (Strip(question) != "" ==> terms[0] == Lower(Strip(question)))
      && forall k :: 1 <= k < |terms| ==>
           terms[k] in LongRuns(TermRuns(question)) && |terms[k]| >= 2 && AllTermChars(terms[k])
    ensures var terms := ExtractQueryTerms(question);
      terms != [""] ==> forall i, j :: 0 <= i < j < |terms| ==>
        FirstIndex(RawTerms(question), terms[i]) < FirstIndex(RawTerms(question), terms[j])
  {
    ExtractQueryTermsOrder(question);
    var raw := RawTerms(question);
    var head := Lower(Strip(question));
    var terms := ExtractQueryTerms(question);
    if Strip(question) != "" {
      assert NonEmpty(raw) == [head] + NonEmpty(raw[1..]) by {
        assert raw == [head] + raw[1..];
      }
      DedupePrefix(NonEmpty(raw), 1);
      assert NonEmpty(raw)[..1] == [head];
      assert Dedupe([head]) == [head] by {
        assert [head][..0] == [];
      }
    }
    forall k | 1 <= k < |terms|
      ensures terms[k] in LongRuns(TermRuns(question)) && |terms[k]| >= 2 && AllTermChars(terms[k])
    {
      assert terms[k] in raw && terms[k] != "";
      if Strip(question) != "" {
        assert terms[k] != terms[0];
      } else {
        assert head == "";
      }
      assert terms[k] in raw[1..];
    }
  }

  /** `dict.fromkeys` order: unless the question gave no term at all, the terms come in the
      order of their first occurrence in the raw list (the whole question, then its runs). */
  lemma ExtractQueryTermsOrder(question: string)
    ensures var terms := ExtractQueryTerms(question);
      terms != [""] ==> forall i, j :: 0 <= i < j < |terms| ==>
        FirstIndex(RawTerms(question), terms[i]) < FirstIndex(RawTerms(question), terms[j])
  {
    var raw := RawTerms(question);
    KeptTermsOrder(raw);
    if Dedupe(NonEmpty(raw)) != [] {
      assert ExtractQueryTerms(question) == Dedupe(NonEmpty(raw));
    }
  }

  /** Extraction is idempotent on its own lower-case output: a question and its lower-cased
      form give the same terms, because lower-casing keeps every term character and every
      blank where it is. */
  lemma ExtractLowerIdempotent(question: string)
    ensures ExtractQueryTerms(Lower(question)) == ExtractQueryTerms(question)
  {
    StripLower(question);
    LowerIdempotent(Strip(question));
    LongRunsOfLower(question);
    assert RawTerms(Lower(question)) == RawTerms(question);
  }

  lemma TermCharOfLower(c: char)
    ensures IsTermChar(LowerChar(c)) <==> IsTermChar(c)
  {
  }

  lemma {:induction false} RunLengthOfLower(s: string)
    ensures RunLength(Lower(s)) == RunLength(s)
    decreases |s|
  {
    if s != [] {
      LowerHead(s);
      TermCharOfLower(s[0]);
      if IsTermChar(s[0]) {
        RunLengthOfLower(s[1..]);
      }
    }
  }

  /** The long runs of a question and of its lower-cased form are the same lower-cased runs. */
  lemma {:induction false} LongRunsOfLower(s: string)
    ensures LongRuns(TermRuns(Lower(s))) == LongRuns(TermRuns(s))
    decreases |s|
  {
    if s != [] {
      var t := Lower(s);
      LowerHead(s);
      TermCharOfLower(s[0]);
      if !IsTermChar(s[0]) {
        TermRunsSkip(t);
        TermRunsSkip(s);
        LongRunsOfLower(s[1..]);
      } else {
        var n := RunLength(s);
        LongRunsOfLower(s[n..]);
        LongRunsOfLowerRun(s);
      }
    }
  }

  /** The step of `LongRunsOfLower` at a run: the first runs agree, and the rest is required
      to agree already. */
  lemma LongRunsOfLowerRun(s: string)
    requires s != [] && IsTermChar(s[0])
    requires LongRuns(TermRuns(Lower(s[RunLength(s)..]))) == LongRuns(TermRuns(s[RunLength(s)..]))
    ensures LongRuns(TermRuns(Lower(s))) == LongRuns(TermRuns(s))
  {
    var t := Lower(s);
    var n := RunLength(s);
    LowerHead(s);
    TermCharOfLower(s[0]);
    RunLengthOfLower(s);
    LowerSplit(s, n);
    TermRunsRun(t);
    TermRunsRun(s);
    LowerIdempotent(s[..n]);
    LongRunsCons(t[..n], s[..n], TermRuns(t[n..]), TermRuns(s[n..]));
  }

  /** Two run lists that start with runs of one lower-cased form and agree after them agree. */
  lemma LongRunsCons(x: string, y: string, a: seq<string>, b: seq<string>)
    requires AllTermChars(x) && AllTermChars(y) && |x| == |y| && Lower(x) == Lower(y)
    requires forall k :: 0 <= k < |a| ==> AllTermChars(a[k])
    requires forall k :: 0 <= k < |b| ==> AllTermChars(b[k])
    requires LongRuns(a) == LongRuns(b)
    ensures LongRuns([x] + a) == LongRuns([y] + b)
  {
    assert ([x] + a)[0] == x && ([x] + a)[1..] == a;
    assert ([y] + b)[0] == y && ([y] + b)[1..] == b;
  }

  lemma TermRunsSkip(s: string)
    requires s != [] && !IsTermChar(s[0])
    ensures TermRuns(s) == TermRuns(s[1..])
  {
  }

  lemma TermRunsRun(s: string)
    requires s != [] && IsTermChar(s[0])
    ensures TermRuns(s) == [s[..RunLength(s)]] + TermRuns(s[RunLength(s)..])
  {
  }

  // ================================================================ _build_lookup_where_clause

  /** The `%term%` LIKE pattern bound to each of a term's five placeholders. */
  function LikePattern(term: string): string { "%" + term + "%" }

  /** The parameter list of the WHERE clause: five copies of each term's pattern, in term
      order. The clause itself is one five-way OR-group per term, whose meaning is
      `Ontology.MatchesAny`. */
  method BuildLookupParams(terms: seq<string>) returns (params: seq<string>)
    ensures |params| == 5 * |terms|
    ensures forall j :: 0 <= j < |params| ==> params[j] == LikePattern(terms[j / 5])
  {
    params := [];
    var i := 0;
    while i < |terms|
      invariant 0 <= i <= |terms|
      invariant |params| == 5 * i
      invariant forall j :: 0 <= j < |params| ==> params[j] == LikePattern(terms[j / 5])
    {
      var pattern := LikePattern(terms[i]);
      var next := params + [pattern, pattern, pattern, pattern, pattern];
      forall j | 5 * i <= j < 5 * i + 5 ensures next[j] == LikePattern(terms[j / 5]) {
        assert j / 5 == i;
      }
      params := next;
      i := i + 1;
    }
  }

  // ================================================================ lookup_ontology_debug

  datatype Candidate = Candidate(
    id: string, className: string, labelText: string,
    matchedTerms: seq<string>, matchedFields: seq<string>, score: int)

  datatype LookupDebug = LookupDebug(
    queryTerms: seq<string>, prioritizedTerms: seq<string>, candidates: seq<Candidate>)

  predicate InId(row: FactRow, t: string) { Contains(Lower(row.id), t) }
  predicate InClass(row: FactRow, t: string) { Contains(Lower(row.className), t) }
  predicate InLabel(row: FactRow, t: string) { Contains(Lower(row.labelText), t) }
  predicate InProps(row: FactRow, t: string) { Contains(Lower(row.props), t) }

  /** A non-empty term that occurs in one of the row's four lower-cased fields. */
  predicate RowHit(row: FactRow, t: string) {
    t != "" && (InId(row, t) || InClass(row, t) || InLabel(row, t) || InProps(row, t))
  }

  /** What one term adds: +3 id, +1 class, +4 label, +2 properties, each field it occurs in. */
  function TermWeight(row: FactRow, t: string): int {
    if t == "" then 0
    else
      (if InId(row, t) then 3 else 0) + (if InClass(row, t) then 1 else 0)
      + (if InLabel(row, t) then 4 else 0) + (if InProps(row, t) then 2 else 0)
  }

  function TermsScore(row: FactRow, ts: seq<string>): int {
    if ts == [] then 0 else TermsScore(row, ts[..|ts| - 1]) + TermWeight(row, ts[|ts| - 1])
  }

  function HitTerms(row: FactRow, ts: seq<string>): seq<string> {
    if ts == [] then []
    else HitTerms(row, ts[..|ts| - 1]) + (if RowHit(row, ts[|ts| - 1]) then [ts[|ts| - 1]] else [])
  }

  /** The names of the fields a non-empty term occurs in. */
  function TermFields(row: FactRow, t: string): set<string> {
    (if t != "" && InId(row, t) then {"id"} else {})
    + (if t != "" && InClass(row, t) then {"class"} else {})
    + (if t != "" && InLabel(row, t) then {"label"} else {})
    + (if t != "" && InProps(row, t) then {"properties"} else {})
  }

  /** The names of the fields some non-empty term of `ts` occurs in. */
  function FieldSet(row: FactRow, ts: seq<string>): set<string> {
    if ts == [] then {} else FieldSet(row, ts[..|ts| - 1]) + TermFields(row, ts[|ts| - 1])
  }

  /** `sorted(fields)` for a set of the four field names, which sort as listed here. */
  function SortedFields(fields: set<string>): seq<string> {
    (if "class" in fields then ["class"] else []) + (if "id" in fields then ["id"] else [])
    + (if "label" in fields then ["label"] else []) + (if "properties" in fields then ["properties"] else [])
  }

  /** The flat +1 for an `alias=` and +1 for a `price_krw=` property. */
  function Bonus(row: FactRow): int {
    (if Contains(Lower(row.props), "alias=") then 1 else 0)
    + (if Contains(Lower(row.props), "price_krw=") then 1 else 0)
  }

  function CandidateOf(row: FactRow, terms: seq<string>): Candidate {
    Candidate(row.id, row.className, row.labelText, HitTerms(row, terms),
              SortedFields(FieldSet(row, terms)), TermsScore(row, terms) + Bonus(row))
  }

  function CandidatesOf(rows: seq<FactRow>, terms: seq<string>): (cs: seq<Candidate>)
    ensures |cs| == |rows|
    ensures forall k :: 0 <= k < |rows| ==> cs[k] == CandidateOf(rows[k], terms)
  {
    seq(|rows|, k requires 0 <= k < |rows| => CandidateOf(rows[k], terms))
  }

  /** Ranking order: score descending, then id ascending. */
  predicate CandidateLe(a: Candidate, b: Candidate) {
    a.score > b.score || (a.score == b.score && StrLe(a.id, b.id))
  }

  /** How many rows a term hits (`keyword_scores[t]`). */
  function HitCount(rows: seq<FactRow>, t: string): nat {
    if rows == [] then 0
    else HitCount(rows[..|rows| - 1], t) + (if RowHit(rows[|rows| - 1], t) then 1 else 0)
  }

  /** Term priority: hit count descending, then length descending, then alphabetical. */
  predicate PriorityLe(a: (string, int), b: (string, int)) {
    a.1 > b.1 || (a.1 == b.1 && (|a.0| > |b.0| || (|a.0| == |b.0| && StrLe(a.0, b.0))))
  }

  function TermCounts(terms: seq<string>, rows: seq<FactRow>): (items: seq<(string, int)>)
    ensures |items| == |terms|
    ensures forall k :: 0 <= k < |terms| ==> items[k] == (terms[k], HitCount(rows, terms[k]))
  {
    seq(|terms|, k requires 0 <= k < |terms| => (terms[k], HitCount(rows, terms[k])))
  }

  function NonEmptyKeys(items: seq<(string, int)>): (r: seq<string>)
    ensures |r| <= |items|
  {
    if items == [] then []
    else (if items[0].0 != "" then [items[0].0] else []) + NonEmptyKeys(items[1..])
  }

  function PrioritizedTerms(terms: seq<string>, rows: seq<FactRow>): seq<string> {
    NonEmptyKeys(Sort(TermCounts(terms, rows), PriorityLe))
  }

  /** What `lookup_ontology_debug` returns for a store, a question and a row limit. */
  function LookupDebugSpec(store: Store, question: string, limit: int): LookupDebug {
    var terms := ExtractQueryTerms(question);
    var rows := LookupRows(store, terms, limit);
    LookupDebug(NonEmpty(terms), PrioritizedTerms(terms, rows), Sort(CandidatesOf(rows, terms), CandidateLe))
  }

  /** Taking one more term adds its weight, its hit and its fields. */
  lemma ScoreStep(row: FactRow, terms: seq<string>, j: int)
    requires 0 <= j < |terms|
    ensures TermsScore(row, terms[..j + 1]) == TermsScore(row, terms[..j]) + TermWeight(row, terms[j])
    ensures HitTerms(row, terms[..j + 1])
         == HitTerms(row, terms[..j]) + (if RowHit(row, terms[j]) then [terms[j]] else [])
    ensures FieldSet(row, terms[..j + 1]) == FieldSet(row, terms[..j]) + TermFields(row, terms[j])
  {
    assert terms[..j + 1][..j] == terms[..j];
  }

  /** The four field tests for a term that hits the row: each field it occurs in is
      recorded and adds its weight. */
  method AddFieldHits(row: FactRow, t: string, fields: set<string>, score: int)
    returns (fields': set<string>, score': int)
    requires RowHit(row, t)
    ensures fields' == fields + TermFields(row, t)
    ensures score' == score + TermWeight(row, t)
    ensures TermWeight(row, t) > 0
  {
    fields', score' := fields, score;
    if InId(row, t) { fields' := fields' + {"id"}; score' := score' + 3; }
    if InClass(row, t) { fields' := fields' + {"class"}; score' := score' + 1; }
    if InLabel(row, t) { fields' := fields' + {"label"}; score' := score' + 4; }
    if InProps(row, t) { fields' := fields' + {"properties"}; score' := score' + 2; }
  }

  /** Scores one row against every term (the body of the row loop): the candidate record,
      and the keyword counters advanced by one for each term the row hits. */
  method ScoreRow(row: FactRow, terms: seq<string>, counts: map<string, int>)
    returns (c: Candidate, counts': map<string, int>)
    requires NoDups(terms)
    requires forall t :: t in terms ==> t in counts
    ensures c == CandidateOf(row, terms)
    ensures forall t :: t in terms ==> t in counts' && counts'[t] == counts[t] + (if RowHit(row, t) then 1 else 0)
  {
    var matched: seq<string> := [];
    var fields: set<string> := {};
    var score := 0;
    counts' := counts;
    var j := 0;
    while j < |terms|
      invariant 0 <= j <= |terms|
      invariant score == TermsScore(row, terms[..j])
      invariant matched == HitTerms(row, terms[..j])
      invariant fields == FieldSet(row, terms[..j])
      invariant forall t :: t in terms ==> t in counts'
      invariant forall t :: t in terms ==>
        counts'[t] == counts[t] + (if t in terms[..j] && RowHit(row, t) then 1 else 0)
    {
      var t := terms[j];
      ScoreStep(row, terms, j);
      assert forall u :: u in terms[..j + 1] <==> u in terms[..j] || u == t;
      assert t !in terms[..j];
      if RowHit(row, t) {
        matched := matched + [t];
        counts' := counts'[t := counts'[t] + 1];
        fields, score := AddFieldHits(row, t, fields, score);
      }
      j := j + 1;
    }
    assert terms[..j] == terms;
    if Contains(Lower(row.props), "alias=") { score := score + 1; }
    if Contains(Lower(row.props), "price_krw=") { score := score + 1; }
    c := Candidate(row.id, row.className, row.labelText, matched, SortedFields(fields), score);
  }

  /** The row loop of `lookup_ontology_debug`: one candidate per row, in row order, and
      the number of rows each term hits. */
  method ScoreRows(rows: seq<FactRow>, terms: seq<string>)
    returns (candidates: seq<Candidate>, counts: map<string, int>)
    requires NoDups(terms)
    ensures candidates == CandidatesOf(rows, terms)
    ensures forall t :: t in terms ==> t in counts && counts[t] == HitCount(rows, t)
  {
    candidates := [];
    counts := map t | t in terms :: 0;
    var i := 0;
    while i < |rows|
      invariant 0 <= i <= |rows|
      invariant candidates == CandidatesOf(rows[..i], terms)
      invariant forall t :: t in terms ==> t in counts && counts[t] == HitCount(rows[..i], t)
    {
      var c;
      c, counts := ScoreRow(rows[i], terms, counts);
      assert rows[..i + 1][..i] == rows[..i];
      candidates := candidates + [c];
      i := i + 1;
    }
    assert rows[..i] == rows;
  }

  /** The `(term, count)` pairs read off counters that hold each term's hit count. */
  lemma ItemsOfCounts(terms: seq<string>, rows: seq<FactRow>, counts: map<string, int>, items: seq<(string, int)>)
    requires forall t :: t in terms ==> t in counts && counts[t] == HitCount(rows, t)
    requires |items| == |terms| && forall k :: 0 <= k < |terms| ==> items[k] == (terms[k], counts[terms[k]])
    ensures items == TermCounts(terms, rows)
  {
  }

  /** `lookup_ontology_debug`: score the rows the lookup query returns (after its LIMIT),
      count per-term hits, then rank candidates and terms. */
  method LookupOntologyDebug(store: Store, question: string, limit: int) returns (d: LookupDebug)
    ensures d == LookupDebugSpec(store, question, limit)
  {
    var terms := ExtractQueryTerms(question);
    var rows := LookupRows(store, terms, limit);
    var candidates, counts := ScoreRows(rows, terms);
    var items := seq(|terms|, k requires 0 <= k < |terms| => (terms[k], counts[terms[k]]));
    ItemsOfCounts(terms, rows, counts, items);
    d := LookupDebug(NonEmpty(terms), NonEmptyKeys(Sort(items, PriorityLe)), Sort(candidates, CandidateLe));
  }

  // ---------------------------------------------------------------- what the ranking means

  lemma CandidateLeTotal()
    ensures TotalPreorder(CandidateLe)
  {
    forall a: Candidate, b: Candidate ensures CandidateLe(a, b) || CandidateLe(b, a) {
      StrLeTotal(a.id, b.id);
    }
    forall a: Candidate, b: Candidate, c: Candidate | CandidateLe(a, b) && CandidateLe(b, c)
      ensures CandidateLe(a, c)
    {
      if a.score == b.score == c.score {
        StrLeTrans(a.id, b.id, c.id);
      }
    }
  }

  /** Term priority is a total order on (term, count) pairs, so the ranked term list is
      the one Python's sort produces, whatever order the terms arrived in. */
  lemma PriorityLeTotalOrder()
    ensures TotalPreorder(PriorityLe) && Antisymmetric(PriorityLe)
  {
    forall a: (string, int), b: (string, int) ensures PriorityLe(a, b) || PriorityLe(b, a) {
      StrLeTotal(a.0, b.0);
    }
    forall a: (string, int), b: (string, int), c: (string, int) | PriorityLe(a, b) && PriorityLe(b, c)
      ensures PriorityLe(a, c)
    {
      if a.1 == b.1 == c.1 && |a.0| == |b.0| == |c.0| {
        StrLeTrans(a.0, b.0, c.0);
      }
    }
    forall a: (string, int), b: (string, int) | PriorityLe(a, b) && PriorityLe(b, a) ensures a == b {
      StrLeAntisym(a.0, b.0);
    }
  }

  /** The candidates come out ranked by score, then id, and are exactly the scored rows. */
  lemma DebugCandidatesRanked(store: Store, question: string, limit: int)
    ensures var terms := ExtractQueryTerms(question);
      var d := LookupDebugSpec(store, question, limit);
      SortedBy(d.candidates, CandidateLe)
      && multiset(d.candidates) == multiset(CandidatesOf(LookupRows(store, terms, limit), terms))
  {
    var terms := ExtractQueryTerms(question);
    CandidateLeTotal();
    SortSorted(CandidatesOf(LookupRows(store, terms, limit), terms), CandidateLe);
  }

  /** A term is listed as matched iff it is non-empty and occurs in one of the four fields. */
  lemma {:induction false} HitTermsIff(row: FactRow, ts: seq<string>)
    ensures forall t :: t in HitTerms(row, ts) <==> t in ts && RowHit(row, t)
  {
    if ts != [] {
      var init := ts[..|ts| - 1];
      HitTermsIff(row, init);
      assert ts == init + [ts[|ts| - 1]];
    }
  }

  predicate InField(row: FactRow, name: string, t: string) {
    (name == "id" && InId(row, t)) || (name == "class" && InClass(row, t))
    || (name == "label" && InLabel(row, t)) || (name == "properties" && InProps(row, t))
  }

  /** A field is reported as matched iff some non-empty term occurs in it. */
  lemma {:induction false} FieldSetIff(row: FactRow, ts: seq<string>)
    ensures forall name :: name in FieldSet(row, ts) <==> exists t :: t in ts && t != "" && InField(row, name, t)
  {
    if ts != [] {
      var init := ts[..|ts| - 1];
      var last := ts[|ts| - 1];
      FieldSetIff(row, init);
      assert ts == init + [last];
      forall name ensures name in FieldSet(row, ts) <==> exists t :: t in ts && t != "" && InField(row, name, t) {
        if name in FieldSet(row, init) {
          var t :| t in init && t != "" && InField(row, name, t);
          assert t in ts;
        } else if name in FieldSet(row, ts) {
          assert last != "" && InField(row, name, last);
        }
        if exists t :: t in ts && t != "" && InField(row, name, t) {
          var t :| t in ts && t != "" && InField(row, name, t);
          if t != last {
            assert t in init;
          }
        }
      }
    }
  }

  /** Each term adds between 0 and 10 points, and more than 0 exactly when it hits the row. */
  lemma {:induction false} TermsScoreBounds(row: FactRow, ts: seq<string>)
    ensures 0 <= TermsScore(row, ts) <= 10 * |ts|
    ensures TermsScore(row, ts) > 0 <==> exists t :: t in ts && RowHit(row, t)
  {
    if ts != [] {
      var init := ts[..|ts| - 1];
      var last := ts[|ts| - 1];
      TermsScoreBounds(row, init);
      assert ts == init + [last];
      if TermsScore(row, init) > 0 {
        var t :| t in init && RowHit(row, t);
        assert t in ts;
      } else if TermWeight(row, last) > 0 {
        assert RowHit(row, last) && last in ts;
      }
      assert TermsScore(row, ts) == TermsScore(row, init) + TermWeight(row, last);
      if exists t :: t in ts && RowHit(row, t) {
        var t :| t in ts && RowHit(row, t);
        if t != last {
          assert t in init;
        } else {
          assert TermWeight(row, last) > 0;
        }
      }
    }
  }

  /** The score of a row lies between 0 and ten points per term plus the two bonus points. */
  lemma CandidateScoreBounds(row: FactRow, terms: seq<string>)
    ensures 0 <= CandidateOf(row, terms).score <= 10 * |terms| + 2
  {
    TermsScoreBounds(row, terms);
  }

  lemma {:induction false} NonEmptyKeysMembers(items: seq<(string, int)>)
    ensures forall t :: t in NonEmptyKeys(items) <==> t != "" && HasKey(items, t)
  {
    if items != [] {
      NonEmptyKeysMembers(items[1..]);
      forall t | t != "" && HasKey(items, t)
        ensures t in NonEmptyKeys(items)
      {
        var k :| 0 <= k < |items| && items[k].0 == t;
        if k > 0 {
          assert items[1..][k - 1].0 == t;
        }
      }
    }
  }

  /** Dropping the empty term from a sorted list of (term, hits) pairs keeps the order. */
  lemma {:induction false} NonEmptyKeysSorted(items: seq<(string, int)>, rows: seq<FactRow>)
    requires SortedBy(items, PriorityLe)
    requires forall k :: 0 <= k < |items| ==> items[k].1 == HitCount(rows, items[k].0)
    ensures var keys := NonEmptyKeys(items);
      forall i, j :: 0 <= i < j < |keys| ==>
        PriorityLe((keys[i], HitCount(rows, keys[i])), (keys[j], HitCount(rows, keys[j])))
  {
    if items != [] {
      var rest := items[1..];
      assert SortedBy(rest, PriorityLe);
      NonEmptyKeysSorted(rest, rows);
      NonEmptyKeysMembers(rest);
      if items[0].0 != "" {
        var keys := NonEmptyKeys(items);
        forall j | 0 < j < |keys|
          ensures PriorityLe((keys[0], HitCount(rows, keys[0])), (keys[j], HitCount(rows, keys[j])))
        {
          assert keys[j] == NonEmptyKeys(rest)[j - 1];
          assert keys[j] in NonEmptyKeys(rest);
          assert HasKey(rest, keys[j]);
          var k :| 0 <= k < |rest| && rest[k].0 == keys[j];
          assert PriorityLe(items[0], items[k + 1]);
        }
      }
    }
  }

  /** Sorting keeps every pair's count equal to its term's hit count. */
  lemma SortedCountsExact(terms: seq<string>, rows: seq<FactRow>)
    ensures var sorted := Sort(TermCounts(terms, rows), PriorityLe);
      forall k :: 0 <= k < |sorted| ==> sorted[k].1 == HitCount(rows, sorted[k].0)
  {
    var items := TermCounts(terms, rows);
    var sorted := Sort(items, PriorityLe);
    forall k | 0 <= k < |sorted| ensures sorted[k].1 == HitCount(rows, sorted[k].0) {
      assert sorted[k] in multiset(items);
      var i :| 0 <= i < |items| && items[i] == sorted[k];
    }
  }

  predicate HasKey(items: seq<(string, int)>, t: string) {
    exists k :: 0 <= k < |items| && items[k].0 == t
  }

  /** Sorting keeps the set of terms. */
  lemma SortedCountsTerms(terms: seq<string>, rows: seq<FactRow>)
    ensures forall t :: HasKey(Sort(TermCounts(terms, rows), PriorityLe), t) <==> t in terms
  {
    var items := TermCounts(terms, rows);
    var sorted := Sort(items, PriorityLe);
    forall t ensures HasKey(sorted, t) <==> t in terms {
      if t in terms {
        var i :| 0 <= i < |terms| && terms[i] == t;
        assert items[i] in multiset(sorted);
        var k :| 0 <= k < |sorted| && sorted[k] == items[i];
        assert sorted[k].0 == t;
      }
      if HasKey(sorted, t) {
        var k :| 0 <= k < |sorted| && sorted[k].0 == t;
        assert sorted[k] in multiset(items);
        var i :| 0 <= i < |items| && items[i] == sorted[k];
        assert terms[i] == t;
      }
    }
  }

  /** The prioritised terms are the non-empty query terms, ordered by how many rows each
      hits (most first), then by length (longest first), then alphabetically. */
  lemma PrioritizedTermsOrdered(terms: seq<string>, rows: seq<FactRow>)
    ensures var p := PrioritizedTerms(terms, rows);
      (forall t :: t in p <==> t in terms && t != "")
      && forall i, j :: 0 <= i < j < |p| ==>
           PriorityLe((p[i], HitCount(rows, p[i])), (p[j], HitCount(rows, p[j])))
  {
    var items := TermCounts(terms, rows);
    PriorityLeTotalOrder();
    SortSorted(items, PriorityLe);
    var sorted := Sort(items, PriorityLe);
    SortedCountsExact(terms, rows);
    SortedCountsTerms(terms, rows);
    assert SortedBy(sorted, PriorityLe);
    NonEmptyKeysSorted(sorted, rows);
    NonEmptyKeysMembers(sorted);
    assert NonEmptyKeys(sorted) == PrioritizedTerms(terms, rows);
  }

  // ================================================================ lookup_ontology_context

  /** The context text for the rows the lookup returned: the sentinel when there are none;
      otherwise one line per row, then the relations whose source is one of those rows
      under a `relations:` header when there are any. */
  function ContextText(store: Store, rows: seq<FactRow>): string {
    if rows == [] then NoFactsSentinel
    else
      var rels := RelationsFrom(store.relations, IdSet(rows));
      Join(FactLines(rows) + (if rels == [] then [] else ["relations:"] + RelationLines(rels)), "\n")
  }

  function FactLines(rows: seq<FactRow>): (lines: seq<string>)
    ensures |lines| == |rows|
    ensures forall k :: 0 <= k < |rows| ==> lines[k] == FactLine(rows[k])
  {
    seq(|rows|, k requires 0 <= k < |rows| => FactLine(rows[k]))
  }

  function LookupContextSpec(store: Store, question: string, limit: int): string {
    ContextText(store, LookupRows(store, ExtractQueryTerms(question), limit))
  }

  /** `lookup_ontology_context`. */
  method LookupOntologyContext(store: Store, question: string, limit: int) returns (context: string)
    ensures context == LookupContextSpec(store, question, limit)
  {
    var terms := ExtractQueryTerms(question);
    var rows := LookupRows(store, terms, limit);
    if rows == [] {
      return NoFactsSentinel;
    }
    var lines: seq<string> := [];
    var i := 0;
    while i < |rows|
      invariant 0 <= i <= |rows|
      invariant lines == FactLines(rows[..i])
    {
      lines := lines + [FactLine(rows[i])];
      i := i + 1;
    }
    assert rows[..i] == rows;
    var rels := RelationsFrom(store.relations, IdSet(rows));
    if rels != [] {
      lines := lines + (["relations:"] + RelationLines(rels));
    } else {
      assert lines == lines + [];
    }
    context := Join(lines, "\n");
    assert context == ContextText(store, rows);
  }

  /** The sentinel comes back exactly when the lookup returned no rows; otherwise the text
      opens with the first row's fact line. */
  lemma ContextSentinelIff(store: Store, rows: seq<FactRow>)
    ensures ContextText(store, rows) == NoFactsSentinel <==> rows == []
    ensures rows != [] ==> StartsWith(ContextText(store, rows), FactLine(rows[0]))
  {
    if rows != [] {
      var rels := RelationsFrom(store.relations, IdSet(rows));
      var parts := FactLines(rows) + (if rels == [] then [] else ["relations:"] + RelationLines(rels));
      JoinStartsWith(parts, "\n");
      assert parts[0] == FactLine(rows[0]);
      var text := ContextText(store, rows);
      assert text[0] == '-';
      assert NoFactsSentinel[0] == 'N';
    }
  }

  /** Over a store with no instances every question gets the sentinel. */
  lemma EmptyStoreContext(store: Store, question: string, limit: int)
    requires store.instances == []
    ensures LookupContextSpec(store, question, limit) == NoFactsSentinel
  {
  }

  // ================================================================ is_price_question

  const PriceKeywords: seq<string> := ["가격", "얼마", "원", "price", "cost", "krw"]

  predicate IsPriceQuestion(question: string) {
    exists k :: k in PriceKeywords && Contains(Lower(question), k)
  }

  /** A price question stays one whatever text is put around it. */
  lemma PriceQuestionExtend(a: string, question: string, b: string)
    requires IsPriceQuestion(question)
    ensures IsPriceQuestion(a + question + b)
  {
    var k :| k in PriceKeywords && Contains(Lower(question), k);
    LowerAppend(a, question);
    LowerAppend(a + question, b);
    ContainsExtend(Lower(a), Lower(question), Lower(b), k);
  }

  /** Case does not matter: a question and its lower-cased form are price questions together. */
  lemma PriceQuestionCaseBlind(question: string)
    ensures IsPriceQuestion(question) <==> IsPriceQuestion(Lower(question))
  {
    LowerOfLowered(Lower(question));
  }

  /** The English keywords are matched case-insensitively. */
  lemma PriceQuestionUpperCase()
    ensures IsPriceQuestion("What is the PRICE?")
  {
    var q := "What is the PRICE?";
    var l := Lower(q);
    assert l[12] == 'p' && l[13] == 'r' && l[14] == 'i' && l[15] == 'c' && l[16] == 'e';
    assert l[12..17] == "price";
    assert ContainsAt(l, "price", 12);
    assert PriceKeywords[3] == "price";
    assert "price" in PriceKeywords && Contains(l, "price");
  }

  // ================================================================ extract_priority_price_fact

  /** One OR-group of the price query: like the lookup's, but without the class column. */
  predicate PriceTermMatches(store: Store, inst: Instance, t: string) {
    Contains(Lower(inst.id), t) || Contains(Lower(LabelText(inst)), t) || PropertyMatches(store, inst.id, t)
  }

  function PriceProps(props: seq<Property>, id: string): (r: seq<Property>)
    ensures forall p :: p in r <==> p in props && p.instanceId == id && p.key == "price_krw"
  {
    if props == [] then []
    else
      (if props[0].instanceId == id && props[0].key == "price_krw" then [props[0]] else [])
      + PriceProps(props[1..], id)
  }

  function PairWith(inst: Instance, ps: seq<Property>): (r: seq<(Instance, Property)>)
    ensures forall h :: h in r <==> h.0 == inst && h.1 in ps
  {
    if ps == [] then [] else [(inst, ps[0])] + PairWith(inst, ps[1..])
  }

  /** The rows of the price query's join, instance by instance. */
  function PriceHits(store: Store, insts: seq<Instance>, terms: seq<string>): (r: seq<(Instance, Property)>)
    ensures forall h :: h in r <==>
      h.0 in insts && (exists t :: t in terms && PriceTermMatches(store, h.0, t))
      && h.1 in store.properties && h.1.instanceId == h.0.id && h.1.key == "price_krw"
  {
    if insts == [] then []
    else
      var inst := insts[0];
      var here := if exists t :: t in terms && PriceTermMatches(store, inst, t)
                  then PairWith(inst, PriceProps(store.properties, inst.id))
                  else [];
      here + PriceHits(store, insts[1..], terms)
  }

  /** `{label or id}의 가격은 {price}원입니다. (source: price_krw={price})` */
  function PriceSentence(inst: Instance, price: string): string {
    (if LabelText(inst) != "" then LabelText(inst) else inst.id)
    + "의 가격은 " + price + "원입니다. (source: price_krw=" + price + ")"
  }

  /** `extract_priority_price_fact`: the first joined row (`LIMIT 1`); no row, or a NULL
      price, gives no fact. */
  function PriorityPriceFact(store: Store, question: string): Option<string> {
    var hits := PriceHits(store, store.instances, ExtractQueryTerms(question));
    if hits == [] then None
    else if hits[0].1.value.None? then None
    else Some(PriceSentence(hits[0].0, hits[0].1.value.value))
  }

  /** A row of the price query's join: a stored instance matching some term, paired with
      one of its stored `price_krw` properties. */
  predicate IsPriceHit(store: Store, terms: seq<string>, inst: Instance, p: Property) {
    inst in store.instances && p in store.properties && p.instanceId == inst.id && p.key == "price_krw"
    && exists t :: t in terms && PriceTermMatches(store, inst, t)
  }

  /** A price fact is always grounded in a stored `price_krw` property of an instance that
      matches a query term, and names that property's value. */
  lemma PriceFactGrounded(store: Store, question: string)
    ensures var r := PriorityPriceFact(store, question);
      r.Some? ==> exists inst, p ::
        IsPriceHit(store, ExtractQueryTerms(question), inst, p) && p.value.Some?
        && r.value == PriceSentence(inst, p.value.value)
  {
    var terms := ExtractQueryTerms(question);
    var hits := PriceHits(store, store.instances, terms);
    if hits != [] {
      assert hits[0] in hits;
      assert IsPriceHit(store, terms, hits[0].0, hits[0].1);
    }
  }

  /** No matching instance with a `price_krw` row gives no fact. */
  lemma PriceFactNone(store: Store, question: string)
    ensures var terms := ExtractQueryTerms(question);
      (forall inst, p :: !IsPriceHit(store, terms, inst, p)) ==> PriorityPriceFact(store, question) == None
  {
    var terms := ExtractQueryTerms(question);
    var hits := PriceHits(store, store.instances, terms);
    if hits != [] {
      assert hits[0] in hits;
      assert IsPriceHit(store, terms, hits[0].0, hits[0].1);
    }
  }

  /** When some matching instance has a `price_krw` row and none of those rows is NULL,
      there is a fact. */
  lemma PriceFactSome(store: Store, question: string)
    ensures var terms := ExtractQueryTerms(question);
      (exists inst, p :: IsPriceHit(store, terms, inst, p))
      && (forall inst, p :: IsPriceHit(store, terms, inst, p) ==> p.value.Some?)
      ==> PriorityPriceFact(store, question).Some?
  {
    var terms := ExtractQueryTerms(question);
    var hits := PriceHits(store, store.instances, terms);
    if exists inst, p :: IsPriceHit(store, terms, inst, p) {
      var inst, p :| IsPriceHit(store, terms, inst, p);
      assert (inst, p) in hits;
      assert hits[0] in hits;
      assert IsPriceHit(store, terms, hits[0].0, hits[0].1);
    }
  }

  /** Without any `price_krw` property there is never a price fact. */
  lemma NoPriceNoFact(store: Store, question: string)
    requires forall p :: p in store.properties ==> p.key != "price_krw"
    ensures PriorityPriceFact(store, question) == None
  {
    var hits := PriceHits(store, store.instances, ExtractQueryTerms(question));
    if hits != [] {
      assert hits[0] in hits;
    }
  }
}
