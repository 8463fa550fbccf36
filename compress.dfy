/**
  `compress_ontology_context`: shrink the retrieved ontology context to a character
  budget before it goes into the prompt. Fact lines are ranked by how well they match the
  question and relation lines by whether they start at a kept fact; the lowest-ranked
  relations go first, then the lowest-ranked facts (never the last one), and what is
  still too long is cut with "...".
 */
module Compression {
  import opened Text
  import opened Seqs
  import opened Sorting
  import opened Ontology
  import opened SqlLookup
  import opened PromptTools

  // ================================================================ sections

  const RelationsHeader: string := "relations:"

  predicate IsRelationsHeader(line: string) { Lower(line) == RelationsHeader }

  /** The state of the line-splitting loop: fact lines (property lists de-duplicated),
      relation lines, and whether a `relations:` header has been seen. */
  datatype Sections = Sections(facts: seq<string>, relations: seq<string>, inRelations: bool)

  /** The loop over the trimmed, non-blank lines: every header is skipped, the first one
      switches from facts to relations. */
  function SplitSections(lines: seq<string>): Sections
  {
    if lines == [] then Sections([], [], false)
    else
      var s := SplitSections(lines[..|lines| - 1]);
      var line := lines[|lines| - 1];
      if IsRelationsHeader(line) then s.(inRelations := true)
      else if s.inRelations then s.(relations := s.relations + [line])
      else s.(facts := s.facts + [DedupeFactProperties(line)])
  }

  /** `[line.strip() for line in context.splitlines() if line.strip()]`. */
  function ContextLines(context: string): seq<string> {
    StrippedNonBlank(SplitLines(context))
  }

  predicate NoHeader(lines: seq<string>) {
    forall k :: 0 <= k < |lines| ==> !IsRelationsHeader(lines[k])
  }

  function DedupeAll(lines: seq<string>): (r: seq<string>)
    ensures |r| == |lines|
    ensures forall k :: 0 <= k < |lines| ==> r[k] == DedupeFactProperties(lines[k])
  {
    if lines == [] then [] else DedupeAll(lines[..|lines| - 1]) + [DedupeFactProperties(lines[|lines| - 1])]
  }

  /** The lines that are not headers, in order. */
  function NonHeaders(lines: seq<string>): (r: seq<string>)
    ensures NoHeader(r)
    ensures forall x :: x in r <==> x in lines && !IsRelationsHeader(x)
  {
    if lines == [] then []
    else
      var init := lines[..|lines| - 1];
      var last := lines[|lines| - 1];
      assert forall x :: x in lines <==> x in init || x == last by {
        assert lines == init + [last];
      }
      if IsRelationsHeader(last) then NonHeaders(init) else NonHeaders(init) + [last]
  }

  /** Without a header every line is a fact line. */
  lemma {:induction false} SectionsWithoutHeader(lines: seq<string>)
    requires NoHeader(lines)
    ensures SplitSections(lines) == Sections(DedupeAll(lines), [], false)
  {
    if lines != [] {
      var init := lines[..|lines| - 1];
      assert NoHeader(init);
      SectionsWithoutHeader(init);
    }
  }

  /** One more line: a header switches to relations, any other line joins the current section. */
  lemma SectionsSnoc(init: seq<string>, line: string)
    ensures var s := SplitSections(init);
      SplitSections(init + [line])
      == if IsRelationsHeader(line) then s.(inRelations := true)
         else if s.inRelations then s.(relations := s.relations + [line])
         else s.(facts := s.facts + [DedupeFactProperties(line)])
  {
    assert (init + [line])[..|init|] == init;
  }

  lemma SnocOfJoined<T>(a: seq<T>, h: T, b: seq<T>)
    requires b != []
    ensures a + [h] + b == (a + [h] + b[..|b| - 1]) + [b[|b| - 1]]
  {
  }

  /** The lines before the first header are the facts; the non-header lines after it,
      later headers included, are the relations. */
  lemma {:induction false} SectionsAfterHeader(before: seq<string>, header: string, after: seq<string>)
    requires NoHeader(before) && IsRelationsHeader(header)
    ensures SplitSections(before + [header] + after)
         == Sections(DedupeAll(before), NonHeaders(after), true)
    decreases |after|
  {
    if after == [] {
      assert before + [header] + after == before + [header];
      SectionsSnoc(before, header);
      SectionsWithoutHeader(before);
    } else {
      var init := after[..|after| - 1];
      SnocOfJoined(before, header, after);
      SectionsAfterHeader(before, header, init);
      SectionsSnoc(before + [header] + init, after[|after| - 1]);
    }
  }

  // ================================================================ scoring and ranking

  /** A line with its score and its position among the lines of its kind. */
  datatype Scored = Scored(score: int, idx: int, line: string)

  /** `key=lambda x: (-x[0], x[1])`: higher score first, then earlier position. */
  predicate RankLe(a: Scored, b: Scored) {
    a.score > b.score || (a.score == b.score && a.idx <= b.idx)
  }

  lemma RankLeTotalPreorder()
    ensures TotalPreorder(RankLe)
  {
  }

  /** `sum(1 for t in terms if t and t in low)`: the non-empty terms that occur. */
  function TermHits(low: string, terms: seq<string>): (r: nat)
    ensures r <= |terms|
  {
    if terms == [] then 0
    else (if terms[0] != "" && Contains(low, terms[0]) then 1 else 0) + TermHits(low, terms[1..])
  }

  /** A term that occurs counts; the count is exactly the number of matching terms. */
  lemma {:induction false} TermHitsAll(low: string, terms: seq<string>)
    requires forall k :: 0 <= k < |terms| ==> terms[k] != "" && Contains(low, terms[k])
    ensures TermHits(low, terms) == |terms|
  {
    if terms != [] {
      TermHitsAll(low, terms[1..]);
    }
  }

  lemma {:induction false} TermHitsNone(low: string, terms: seq<string>)
    requires forall k :: 0 <= k < |terms| ==> !Contains(low, terms[k])
    ensures TermHits(low, terms) == 0
  {
    if terms != [] {
      TermHitsNone(low, terms[1..]);
    }
  }

  const PriceMarker: string := "price_krw="
  const AliasMarker: string := "alias="
  const LabelMarker: string := "label='"

  /** A fact line's score: 100 for a price on a price question, one per matching term,
      2 for an alias, 1 for a label. */
  function FactScore(line: string, terms: seq<string>, priceQuestion: bool): int {
    var low := Lower(line);
    (if priceQuestion && Contains(low, PriceMarker) then 100 else 0)
    + TermHits(low, terms)
    + (if Contains(low, AliasMarker) then 2 else 0)
    + (if Contains(low, LabelMarker) then 1 else 0)
  }

  /** On a price question a priced fact outranks every unpriced one, unless the question
      has at least 97 terms. */
  lemma PriceFactOutranks(a: string, b: string, terms: seq<string>)
    requires Contains(Lower(a), PriceMarker) && !Contains(Lower(b), PriceMarker)
    requires |terms| < 97
    ensures FactScore(a, terms, true) > FactScore(b, terms, true)
  {
  }

  function ScoreFacts(facts: seq<string>, terms: seq<string>, priceQuestion: bool): (r: seq<Scored>)
    ensures |r| == |facts|
    ensures forall k :: 0 <= k < |facts| ==> r[k] == Scored(FactScore(facts[k], terms, priceQuestion), k, facts[k])
  {
    seq(|facts|, k requires 0 <= k < |facts| => Scored(FactScore(facts[k], terms, priceQuestion), k, facts[k]))
  }

  lemma ScoreFactsNext(facts: seq<string>, k: nat, terms: seq<string>, priceQuestion: bool)
    requires k < |facts|
    ensures ScoreFacts(facts[..k + 1], terms, priceQuestion)
         == ScoreFacts(facts[..k], terms, priceQuestion) + [Scored(FactScore(facts[k], terms, priceQuestion), k, facts[k])]
  {
    var a := ScoreFacts(facts[..k + 1], terms, priceQuestion);
    var b := ScoreFacts(facts[..k], terms, priceQuestion) + [Scored(FactScore(facts[k], terms, priceQuestion), k, facts[k])];
    assert |a| == |b|;
    forall j | 0 <= j < |a| ensures a[j] == b[j] {
      assert facts[..k + 1][j] == facts[j];
      if j < k {
        assert facts[..k][j] == facts[j];
      }
    }
  }

  /** `{fact_id_from_line(l) for l in lines} - {None}`. */
  function IdsOf(lines: seq<string>): set<string> {
    set l | l in lines && FactIdFromLine(l).Some? :: FactIdFromLine(l).value
  }

  /** A relation line's score: 10 when its source is a kept fact's id, one per matching term. */
  function RelationScore(line: string, ids: set<string>, terms: seq<string>): int {
    var source := RelationSourceFromLine(line);
    (if source.Some? && source.value in ids then 10 else 0) + TermHits(Lower(line), terms)
  }

  /** A relation from a kept fact outranks one from elsewhere that matches no more terms. */
  lemma LinkedRelationOutranks(a: string, b: string, ids: set<string>, terms: seq<string>)
    requires RelationSourceFromLine(a).Some? && RelationSourceFromLine(a).value in ids
    requires RelationSourceFromLine(b).None? || RelationSourceFromLine(b).value !in ids
    requires TermHits(Lower(b), terms) <= TermHits(Lower(a), terms)
    ensures RelationScore(a, ids, terms) >= RelationScore(b, ids, terms) + 10
  {
  }

  function ScoreRelations(relations: seq<string>, ids: set<string>, terms: seq<string>): (r: seq<Scored>)
    ensures |r| == |relations|
    ensures forall k :: 0 <= k < |relations| ==> r[k] == Scored(RelationScore(relations[k], ids, terms), k, relations[k])
  {
    seq(|relations|, k requires 0 <= k < |relations| => Scored(RelationScore(relations[k], ids, terms), k, relations[k]))
  }

  lemma ScoreRelationsNext(relations: seq<string>, k: nat, ids: set<string>, terms: seq<string>)
    requires k < |relations|
    ensures ScoreRelations(relations[..k + 1], ids, terms)
         == ScoreRelations(relations[..k], ids, terms) + [Scored(RelationScore(relations[k], ids, terms), k, relations[k])]
  {
    var a := ScoreRelations(relations[..k + 1], ids, terms);
    var b := ScoreRelations(relations[..k], ids, terms) + [Scored(RelationScore(relations[k], ids, terms), k, relations[k])];
    assert |a| == |b|;
    forall j | 0 <= j < |a| ensures a[j] == b[j] {
      var line := relations[j];
      assert relations[..k + 1][j] == line;
      var e := Scored(RelationScore(line, ids, terms), j, line);
      assert a[j] == e;
      if j < k {
        assert relations[..k][j] == line;
        assert b[j] == ScoreRelations(relations[..k], ids, terms)[j];
      } else {
        assert b[j] == Scored(RelationScore(relations[k], ids, terms), k, relations[k]);
      }
    }
  }

  function LinesOf(s: seq<Scored>): (r: seq<string>)
    ensures |r| == |s|
    ensures forall k :: 0 <= k < |s| ==> r[k] == s[k].line
  {
    seq(|s|, k requires 0 <= k < |s| => s[k].line)
  }

  lemma LinesOfPrefix(s: seq<Scored>, n: nat)
    requires n <= |s|
    ensures LinesOf(s[..n]) == LinesOf(s)[..n]
  {
  }

  // ================================================================ selection

  /** The fact and relation lines chosen before the character budget is applied. */
  datatype Selection = Selection(facts: seq<string>, relations: seq<string>)

  function RankedFacts(facts: seq<string>, question: string): seq<Scored> {
    Sort(ScoreFacts(facts, ExtractQueryTerms(question), IsPriceQuestion(question)), RankLe)
  }

  function RankedRelations(relations: seq<string>, ids: set<string>, question: string): seq<Scored> {
    Sort(ScoreRelations(relations, ids, ExtractQueryTerms(question)), RankLe)
  }

  /** `selected_facts`: the top `max(1, max_facts)` fact lines. */
  function TopFacts(facts: seq<string>, question: string, maxFacts: int): seq<string> {
    LinesOf(PyPrefix(RankedFacts(facts, question), Max(1, maxFacts)))
  }

  /** `selected_relations`: the top `max(0, max_relations)` relation lines. */
  function TopRelations(relations: seq<string>, ids: set<string>, question: string, maxRelations: int): seq<string> {
    LinesOf(PyPrefix(RankedRelations(relations, ids, question), Max(0, maxRelations)))
  }

  /** Strict mode keeps at most 3 facts and 1 relation. */
  function StrictCut(sel: Selection): Selection {
    Selection(PyPrefix(sel.facts, Min(|sel.facts|, 3)), PyPrefix(sel.relations, Min(|sel.relations|, 1)))
  }

  /** The top facts, the top relations scored against the ids of those facts, then the
      strict cut in strict mode. */
  function Select(facts: seq<string>, relations: seq<string>, question: string,
                  maxFacts: int, maxRelations: int, mode: string): Selection
  {
    var selFacts := TopFacts(facts, question, maxFacts);
    var sel := Selection(selFacts, TopRelations(relations, IdsOf(selFacts), question, maxRelations));
    if mode == "strict" then StrictCut(sel) else sel
  }

  // ================================================================ rendering and budget

  /** `render_context`: the facts, then a `relations:` header and the relations if any. */
  function Render(facts: seq<string>, relations: seq<string>): string {
    Join(RenderedLines(facts, relations), "\n")
  }

  /** The lines `render_context` joins. */
  function RenderedLines(facts: seq<string>, relations: seq<string>): seq<string> {
    facts + (if relations != [] then [RelationsHeader] + relations else [])
  }

  /** The first loop: drop the last relation while there is one and the text is too long. */
  function DropRelations(facts: seq<string>, relations: seq<string>, budget: int): (r: seq<string>)
    ensures |r| <= |relations| && r == relations[..|r|]
    ensures r == [] || |Render(facts, r)| <= budget
    decreases |relations|
  {
    if relations != [] && |Render(facts, relations)| > budget then
      DropRelations(facts, relations[..|relations| - 1], budget)
    else relations
  }

  /** The second loop: drop the last fact while more than one is left and the text is too long. */
  function DropFacts(facts: seq<string>, relations: seq<string>, budget: int): (r: seq<string>)
    ensures |r| <= |facts| && r == facts[..|r|]
    ensures |facts| >= 1 ==> |r| >= 1
    ensures |r| <= 1 || |Render(r, relations)| <= budget
    decreases |facts|
  {
    if |facts| > 1 && |Render(facts, relations)| > budget then
      DropFacts(facts[..|facts| - 1], relations, budget)
    else facts
  }

  /** The final cut: `context[:n]` for a budget of 3 or less, otherwise the first `n - 3`
      characters with trailing blanks removed and "..." appended. */
  function Truncate(context: string, budget: int): string {
    if |context| > budget then
      if budget <= 3 then PyPrefix(context, budget)
      else RStrip(context[..budget - 3]) + "..."
    else context
  }

  /** The lines kept once both loops have run. */
  function Budgeted(sel: Selection, budget: int): Selection {
    var relations := DropRelations(sel.facts, sel.relations, budget);
    Selection(DropFacts(sel.facts, relations, budget), relations)
  }

  /** The lines kept for a context that has fact lines, before the final cut. */
  function Kept(question: string, sections: Sections, maxFacts: int, maxRelations: int,
                budget: int, mode: string): Selection
  {
    Budgeted(Select(sections.facts, sections.relations, question, maxFacts, maxRelations, mode), budget)
  }

  function CompressSpec(question: string, context: string, maxFacts: int, maxRelations: int,
                        budget: int, mode: string): string
  {
    if context == "" || context == NoFactsSentinel then context
    else
      var sections := SplitSections(ContextLines(context));
      if sections.facts == [] then
        (if |context| > budget then PyPrefix(context, budget) else context)
      else
        var kept := Kept(question, sections, maxFacts, maxRelations, budget, mode);
        Truncate(Render(kept.facts, kept.relations), budget)
  }

  // ================================================================ properties

  /** The empty context and the no-facts sentence come back unchanged. */
  lemma CompressKeepsSentinel(question: string, context: string, maxFacts: int, maxRelations: int,
                              budget: int, mode: string)
    requires context == "" || context == NoFactsSentinel
    ensures CompressSpec(question, context, maxFacts, maxRelations, budget, mode) == context
  {
  }

  /** The final cut never exceeds a non-negative budget, changes the text exactly when it
      is over budget, and past a budget of 3 leaves a prefix of the text followed by "...". */
  lemma TruncateWithin(context: string, budget: int)
    requires budget >= 0
    ensures |Truncate(context, budget)| <= budget
    ensures Truncate(context, budget) == context <==> |context| <= budget
    ensures budget > 3 && |context| > budget ==>
      var r := Truncate(context, budget);
      EndsWith(r, "...") && StartsWith(context, r[..|r| - 3])
  {
    var r := Truncate(context, budget);
    if |context| > budget {
      assert |r| <= budget;
      if budget > 3 {
        var kept := RStrip(context[..budget - 3]);
        assert r[..|r| - 3] == kept;
        assert context[..|kept|] == kept;
      }
    }
  }

  /** Whatever the context, the result fits a non-negative budget (the no-facts sentence
      alone is passed through as it is). */
  lemma CompressWithinBudget(question: string, context: string, maxFacts: int, maxRelations: int,
                             budget: int, mode: string)
    requires budget >= 0 && context != NoFactsSentinel
    ensures |CompressSpec(question, context, maxFacts, maxRelations, budget, mode)| <= budget
  {
    if context != "" {
      var sections := SplitSections(ContextLines(context));
      if sections.facts != [] {
        var kept := Kept(question, sections, maxFacts, maxRelations, budget, mode);
        TruncateWithin(Render(kept.facts, kept.relations), budget);
      }
    }
  }

  /** The budget loops keep prefixes, keep at least one fact, drop nothing from a
      rendering that already fits, drop facts only once every relation is gone, and stop
      as soon as the rendering fits or only one fact is left. */
  lemma BudgetedShape(sel: Selection, budget: int)
    requires sel.facts != []
    ensures var b := Budgeted(sel, budget);
      && 1 <= |b.facts| && b.facts == sel.facts[..|b.facts|]
      && b.relations == sel.relations[..|b.relations|]
      && (|Render(sel.facts, sel.relations)| <= budget ==> b == sel)
      && (|b.facts| < |sel.facts| ==> b.relations == [])
      && (|Render(b.facts, b.relations)| <= budget || (b.relations == [] && |b.facts| == 1))
  {
    var relations := DropRelations(sel.facts, sel.relations, budget);
    if relations != [] {
      assert |Render(sel.facts, relations)| <= budget;
      assert DropFacts(sel.facts, relations, budget) == sel.facts;
    }
  }

  /** The relation loop stops at the first prefix that fits: one more relation would not. */
  lemma {:induction false} DropRelationsFirstFit(facts: seq<string>, relations: seq<string>, budget: int)
    ensures var r := DropRelations(facts, relations, budget);
      |r| < |relations| ==> |Render(facts, relations[..|r| + 1])| > budget
    decreases |relations|
  {
    if relations != [] && |Render(facts, relations)| > budget {
      var init := relations[..|relations| - 1];
      DropRelationsFirstFit(facts, init, budget);
      var r := DropRelations(facts, init, budget);
      if |r| < |init| {
        assert init[..|r| + 1] == relations[..|r| + 1];
      } else {
        assert relations[..|r| + 1] == relations;
      }
    }
  }

  /** The fact loop stops at the first prefix that fits: one more fact would not. */
  lemma {:induction false} DropFactsFirstFit(facts: seq<string>, relations: seq<string>, budget: int)
    ensures var r := DropFacts(facts, relations, budget);
      |r| < |facts| ==> |Render(facts[..|r| + 1], relations)| > budget
    decreases |facts|
  {
    if |facts| > 1 && |Render(facts, relations)| > budget {
      var init := facts[..|facts| - 1];
      DropFactsFirstFit(init, relations, budget);
      var r := DropFacts(init, relations, budget);
      if |r| < |init| {
        assert init[..|r| + 1] == facts[..|r| + 1];
      } else {
        assert facts[..|r| + 1] == facts;
      }
    }
  }

  /** A larger budget never keeps fewer relations. */
  lemma {:induction false} DropRelationsMonotone(facts: seq<string>, relations: seq<string>, b1: int, b2: int)
    requires b1 <= b2
    ensures |DropRelations(facts, relations, b1)| <= |DropRelations(facts, relations, b2)|
    decreases |relations|
  {
    if relations != [] && |Render(facts, relations)| > b2 {
      DropRelationsMonotone(facts, relations[..|relations| - 1], b1, b2);
    }
  }

  /** A larger budget never keeps fewer facts. */
  lemma {:induction false} DropFactsMonotone(facts: seq<string>, relations: seq<string>, b1: int, b2: int)
    requires b1 <= b2
    ensures |DropFacts(facts, relations, b1)| <= |DropFacts(facts, relations, b2)|
    decreases |facts|
  {
    if |facts| > 1 && |Render(facts, relations)| > b2 {
      DropFactsMonotone(facts[..|facts| - 1], relations, b1, b2);
    }
  }

  /** Both loops together: a larger budget keeps at least as many facts and relations,
      and what the smaller budget keeps is a prefix of what the larger one keeps. */
  lemma BudgetedMonotone(sel: Selection, b1: int, b2: int)
    requires b1 <= b2
    ensures var k1 := Budgeted(sel, b1);
      var k2 := Budgeted(sel, b2);
      && |k1.facts| <= |k2.facts| && k1.facts == k2.facts[..|k1.facts|]
      && |k1.relations| <= |k2.relations| && k1.relations == k2.relations[..|k1.relations|]
  {
    var r1 := DropRelations(sel.facts, sel.relations, b1);
    var r2 := DropRelations(sel.facts, sel.relations, b2);
    DropRelationsMonotone(sel.facts, sel.relations, b1, b2);
    if r2 != [] {
      assert DropFacts(sel.facts, r2, b2) == sel.facts;
    } else {
      assert r1 == [];
      DropFactsMonotone(sel.facts, [], b1, b2);
    }
  }

  /** `compress_ontology_context` is monotonic in `max_context_chars`: with the other inputs
      fixed, a larger budget keeps at least as many fact lines (and relation lines), and the
      lines kept under the smaller budget lead those kept under the larger one. */
  lemma KeptMonotone(question: string, sections: Sections, maxFacts: int, maxRelations: int,
                     b1: int, b2: int, mode: string)
    requires b1 <= b2
    ensures var k1 := Kept(question, sections, maxFacts, maxRelations, b1, mode);
      var k2 := Kept(question, sections, maxFacts, maxRelations, b2, mode);
      && |k1.facts| <= |k2.facts| && k1.facts == k2.facts[..|k1.facts|]
      && |k1.relations| <= |k2.relations| && k1.relations == k2.relations[..|k1.relations|]
  {
    BudgetedMonotone(Select(sections.facts, sections.relations, question, maxFacts, maxRelations, mode), b1, b2);
  }

  /** The ranking is in order under the sort key and holds every scored line once. */
  lemma RankingSorted(scored: seq<Scored>)
    ensures SortedBy(Sort(scored, RankLe), RankLe)
    ensures multiset(Sort(scored, RankLe)) == multiset(scored)
  {
    RankLeTotalPreorder();
    SortSorted(scored, RankLe);
  }

  /** `[line for _, _, line in ranked[:n]]`: a prefix of the ranking whose every line is
      ranked no later than any line left out. */
  lemma TopOfRanking(scored: seq<Scored>, n: int)
    ensures var ranked := Sort(scored, RankLe);
      var top := LinesOf(PyPrefix(ranked, n));
      && top == LinesOf(ranked)[..|top|]
      && (n >= 0 ==> |top| <= n)
      && (n >= 1 && scored != [] ==> |top| >= 1)
      && (forall i, j :: 0 <= i < |top| <= j < |ranked| ==> RankLe(ranked[i], ranked[j]))
  {
    var ranked := Sort(scored, RankLe);
    RankingSorted(scored);
    LinesOfPrefix(ranked, |PyPrefix(ranked, n)|);
  }

  /** The strict cut keeps a prefix of each list, at most 3 facts (at least one when there
      was one) and at most 1 relation. */
  lemma StrictCutPrefix(sel: Selection)
    ensures var c := StrictCut(sel);
      && c.facts == sel.facts[..|c.facts|] && c.relations == sel.relations[..|c.relations|]
      && |c.facts| <= 3 && |c.relations| <= 1
      && (sel.facts != [] ==> c.facts != [])
  {
  }

  lemma PrefixOfPrefix<T>(s: seq<T>, a: seq<T>, b: seq<T>)
    requires |a| <= |s| && a == s[..|a|] && |b| <= |a| && b == a[..|b|]
    ensures b == s[..|b|]
  {
  }

  /** The selected facts are the top of the ranking: a non-empty prefix of at most
      `max(1, max_facts)` lines (3 in strict mode), each ranked no later than any line left
      out. */
  lemma {:induction false} SelectTopRanked(facts: seq<string>, relations: seq<string>, question: string,
                        maxFacts: int, maxRelations: int, mode: string)
    requires facts != []
    ensures var sel := Select(facts, relations, question, maxFacts, maxRelations, mode);
      var ranked := RankedFacts(facts, question);
      && 1 <= |sel.facts| <= Max(1, maxFacts) && |sel.facts| <= |ranked|
      && sel.facts == LinesOf(ranked)[..|sel.facts|]
      && (forall i, j :: 0 <= i < |sel.facts| <= j < |ranked| ==> RankLe(ranked[i], ranked[j]))
      && (mode == "strict" ==> |sel.facts| <= 3)
  {
    var terms := ExtractQueryTerms(question);
    var selFacts := TopFacts(facts, question, maxFacts);
    TopOfRanking(ScoreFacts(facts, terms, IsPriceQuestion(question)), Max(1, maxFacts));
    RankingSorted(ScoreFacts(facts, terms, IsPriceQuestion(question)));
    SelectFactsOfTop(facts, relations, question, maxFacts, maxRelations, mode);
    var sel := Select(facts, relations, question, maxFacts, maxRelations, mode);
    PrefixOfPrefix(LinesOf(RankedFacts(facts, question)), selFacts, sel.facts);
  }

  /** The selected facts are a prefix of the top facts, non-empty when those are, and at
      most 3 in strict mode. */
  lemma SelectFactsOfTop(facts: seq<string>, relations: seq<string>, question: string,
                         maxFacts: int, maxRelations: int, mode: string)
    ensures var sel := Select(facts, relations, question, maxFacts, maxRelations, mode);
      var top := TopFacts(facts, question, maxFacts);
      && |sel.facts| <= |top| && sel.facts == top[..|sel.facts|]
      && (top != [] ==> sel.facts != [])
      && (mode == "strict" ==> |sel.facts| <= 3)
  {
    var selFacts := TopFacts(facts, question, maxFacts);
    var pre := Selection(selFacts, TopRelations(relations, IdsOf(selFacts), question, maxRelations));
    StrictCutPrefix(pre);
  }

  /** The relations are the top of their own ranking, scored against the ids of the facts
      selected before the strict cut: at most `max(0, max_relations)` of them (1 in strict
      mode). */
  lemma {:induction false} SelectRelationsTopRanked(facts: seq<string>, relations: seq<string>, question: string,
                                 maxFacts: int, maxRelations: int, mode: string)
    ensures var sel := Select(facts, relations, question, maxFacts, maxRelations, mode);
      var ranked := RankedRelations(relations, IdsOf(TopFacts(facts, question, maxFacts)), question);
      && |sel.relations| <= |ranked|
      && sel.relations == LinesOf(ranked)[..|sel.relations|]
      && (forall i, j :: 0 <= i < |sel.relations| <= j < |ranked| ==> RankLe(ranked[i], ranked[j]))
      && |sel.relations| <= Max(0, maxRelations)
      && (mode == "strict" ==> |sel.relations| <= 1)
  {
    var selFacts := TopFacts(facts, question, maxFacts);
    var ids := IdsOf(selFacts);
    TopOfRanking(ScoreRelations(relations, ids, ExtractQueryTerms(question)), Max(0, maxRelations));
    RankingSorted(ScoreRelations(relations, ids, ExtractQueryTerms(question)));
    var pre := Selection(selFacts, TopRelations(relations, ids, question, maxRelations));
    StrictCutPrefix(pre);
    var sel := Select(facts, relations, question, maxFacts, maxRelations, mode);
    assert sel == pre || sel == StrictCut(pre);
    PrefixOfPrefix(LinesOf(RankedRelations(relations, ids, question)), pre.relations, sel.relations);
  }

  /** What survives compression is a non-empty prefix of the fact ranking and a prefix of
      the relation ranking. */
  lemma KeptTopRanked(question: string, sections: Sections, maxFacts: int, maxRelations: int,
                      budget: int, mode: string)
    requires sections.facts != []
    ensures var kept := Kept(question, sections, maxFacts, maxRelations, budget, mode);
      var ranked := LinesOf(RankedFacts(sections.facts, question));
      && 1 <= |kept.facts| <= |ranked|
      && kept.facts == ranked[..|kept.facts|]
  {
    var sel := Select(sections.facts, sections.relations, question, maxFacts, maxRelations, mode);
    SelectTopRanked(sections.facts, sections.relations, question, maxFacts, maxRelations, mode);
    BudgetedShape(sel, budget);
    var kept := Kept(question, sections, maxFacts, maxRelations, budget, mode);
    var ranked := LinesOf(RankedFacts(sections.facts, question));
    assert kept.facts == sel.facts[..|kept.facts|];
    assert sel.facts == ranked[..|sel.facts|];
  }

  // ================================================================ idempotence

  /** A fact line as the section loop leaves it: clean, not a header, its property list
      already de-duplicated. */
  predicate FactLineOk(l: string) { CleanLine(l) && !IsRelationsHeader(l) && DedupeFactProperties(l) == l }

  /** A relation line as the section loop leaves it: clean and not a header. */
  predicate RelationLineOk(l: string) { CleanLine(l) && !IsRelationsHeader(l) }

  lemma ContextLinesClean(context: string)
    ensures forall l :: l in ContextLines(context) ==> CleanLine(l)
  {
    SplitLinesNoBreak(context);
    StrippedNonBlankClean(SplitLines(context));
  }

  /** A line holding `props=[` is not the header. */
  lemma MarkedNotHeader(l: string, i: int)
    requires ContainsAt(l, PropsMarker, i)
    ensures !IsRelationsHeader(l)
  {
    assert l[i] == PropsMarker[0] == 'p';
    assert Lower(l)[i] == 'p';
    assert forall k :: 0 <= k <= 3 ==> RelationsHeader[k] != 'p';
  }

  /** De-duplicating a clean non-header line gives a line the section loop leaves as it is. */
  lemma DedupeLineOk(l: string)
    requires CleanLine(l) && !IsRelationsHeader(l)
    ensures FactLineOk(DedupeFactProperties(l))
  {
    DedupeFactPropertiesClean(l);
    DedupeFactPropertiesIdempotent(l);
    if DedupeFactProperties(l) != l {
      MarkedNotHeader(DedupeFactProperties(l), Find(l, PropsMarker));
    }
  }

  /** The section loop over clean lines yields fact and relation lines it would keep as
      they are. */
  lemma {:induction false} SectionsClean(lines: seq<string>)
    requires forall l :: l in lines ==> CleanLine(l)
    ensures var s := SplitSections(lines);
      && (forall l :: l in s.facts ==> FactLineOk(l))
      && (forall l :: l in s.relations ==> RelationLineOk(l))
  {
    if lines != [] {
      var init := lines[..|lines| - 1];
      var line := lines[|lines| - 1];
      assert lines == init + [line];
      SectionsClean(init);
      if !IsRelationsHeader(line) && !SplitSections(init).inRelations {
        DedupeLineOk(line);
      }
    }
  }

  lemma DedupeAllFixed(lines: seq<string>)
    requires forall l :: l in lines ==> DedupeFactProperties(l) == l
    ensures DedupeAll(lines) == lines
  {
    var r := DedupeAll(lines);
    forall k | 0 <= k < |lines| ensures r[k] == lines[k] { assert lines[k] in lines; }
  }

  lemma {:induction false} NonHeadersFixed(lines: seq<string>)
    requires NoHeader(lines)
    ensures NonHeaders(lines) == lines
  {
    if lines != [] {
      var init := lines[..|lines| - 1];
      assert NoHeader(init);
      NonHeadersFixed(init);
      assert lines == init + [lines[|lines| - 1]];
    }
  }

  /** Clean lines joined by newlines read back as the same lines. */
  lemma ContextLinesOfJoin(lines: seq<string>)
    requires lines != []
    requires forall k :: 0 <= k < |lines| ==> CleanLine(lines[k])
    ensures ContextLines(Join(lines, "\n")) == lines
  {
    SplitLinesOfJoin(lines);
    StrippedNonBlankOfClean(lines);
  }

  lemma RenderedLinesClean(facts: seq<string>, relations: seq<string>)
    requires forall l :: l in facts ==> CleanLine(l)
    requires forall l :: l in relations ==> CleanLine(l)
    ensures forall k :: 0 <= k < |RenderedLines(facts, relations)| ==> CleanLine(RenderedLines(facts, relations)[k])
  {
    if relations != [] {
      RenderedHeaderClean(facts, relations);
    }
    RenderedLinesAll(facts, relations, CleanLine);
  }

  /** Whatever holds of every fact line, every relation line and the header holds of
      every rendered line. */
  lemma RenderedLinesAll(facts: seq<string>, relations: seq<string>, P: string -> bool)
    requires forall l :: l in facts ==> P(l)
    requires forall l :: l in relations ==> P(l)
    requires relations != [] ==> P(RenderedLines(facts, relations)[|facts|])
    ensures forall k :: 0 <= k < |RenderedLines(facts, relations)| ==> P(RenderedLines(facts, relations)[k])
  {
    var lines := RenderedLines(facts, relations);
    forall k | 0 <= k < |lines| ensures P(lines[k]) {
      if k < |facts| {
        assert lines[k] == facts[k];
        assert facts[k] in facts;
      } else if k > |facts| {
        assert lines[k] == relations[k - |facts| - 1];
        assert relations[k - |facts| - 1] in relations;
      }
    }
  }

  /** The header between the two parts of a rendering is a clean line. */
  lemma RenderedHeaderClean(facts: seq<string>, relations: seq<string>)
    requires relations != []
    ensures CleanLine(RenderedLines(facts, relations)[|facts|])
  {
    HeaderClean(RenderedLines(facts, relations)[|facts|]);
  }

  lemma HeaderClean(h: string)
    requires h == RelationsHeader
    ensures CleanLine(h)
  {
    StripOfTrimmed(h);
  }

  /** The section loop sorts rendered lines back into the facts and relations. */
  lemma SectionsOfRendered(facts: seq<string>, relations: seq<string>)
    requires NoHeader(facts) && NoHeader(relations)
    requires forall l :: l in facts ==> DedupeFactProperties(l) == l
    ensures var s := SplitSections(RenderedLines(facts, relations));
      s.facts == facts && s.relations == relations
  {
    DedupeAllFixed(facts);
    if relations == [] {
      assert RenderedLines(facts, relations) == facts;
      SectionsWithoutHeader(facts);
    } else {
      NonHeadersFixed(relations);
      HeaderIsHeader();
      var lines := facts + [RelationsHeader] + relations;
      assert RenderedLines(facts, relations) == lines;
      SectionsAfterHeader(facts, RelationsHeader, relations);
      assert SplitSections(lines) == Sections(facts, relations, true);
    }
  }

  lemma HeaderIsHeader()
    ensures IsRelationsHeader(RelationsHeader)
  {
    LowerOfLowered(RelationsHeader);
  }

  lemma NoHeaderOf(lines: seq<string>)
    requires forall l :: l in lines ==> RelationLineOk(l)
    ensures NoHeader(lines)
  {
    forall k | 0 <= k < |lines| ensures !IsRelationsHeader(lines[k]) { assert lines[k] in lines; }
  }

  /** Reading a rendered context back gives the same fact and relation lines. */
  lemma ReparseRendered(facts: seq<string>, relations: seq<string>)
    requires facts != []
    requires forall l :: l in facts ==> FactLineOk(l)
    requires forall l :: l in relations ==> RelationLineOk(l)
    ensures var s := SplitSections(ContextLines(Render(facts, relations)));
      s.facts == facts && s.relations == relations
  {
    assert forall l :: l in facts ==> CleanLine(l);
    assert forall l :: l in relations ==> CleanLine(l);
    RenderedLinesClean(facts, relations);
    ContextLinesOfJoin(RenderedLines(facts, relations));
    NoHeaderOf(facts);
    NoHeaderOf(relations);
    SectionsOfRendered(facts, relations);
  }

  /** Every ranked fact carries its own score and comes from the input. */
  lemma RankedFactsFrom(facts: seq<string>, question: string)
    ensures forall x :: x in RankedFacts(facts, question) ==>
      x.line in facts && x.score == FactScore(x.line, ExtractQueryTerms(question), IsPriceQuestion(question))
  {
    var scored := ScoreFacts(facts, ExtractQueryTerms(question), IsPriceQuestion(question));
    forall x | x in RankedFacts(facts, question)
      ensures x.line in facts && x.score == FactScore(x.line, ExtractQueryTerms(question), IsPriceQuestion(question))
    {
      assert x in multiset(Sort(scored, RankLe));
      var k :| 0 <= k < |scored| && scored[k] == x;
    }
  }

  /** Every ranked relation carries its own score and comes from the input. */
  lemma RankedRelationsFrom(relations: seq<string>, ids: set<string>, question: string)
    ensures forall x :: x in RankedRelations(relations, ids, question) ==>
      x.line in relations && x.score == RelationScore(x.line, ids, ExtractQueryTerms(question))
  {
    var scored := ScoreRelations(relations, ids, ExtractQueryTerms(question));
    forall x | x in RankedRelations(relations, ids, question)
      ensures x.line in relations && x.score == RelationScore(x.line, ids, ExtractQueryTerms(question))
    {
      assert x in multiset(Sort(scored, RankLe));
      var k :| 0 <= k < |scored| && scored[k] == x;
    }
  }

  /** The leading entries of a ranking, numbered afresh, are still in ranking order. */
  lemma ResortedPrefix(ranked: seq<Scored>, rescored: seq<Scored>)
    requires SortedBy(ranked, RankLe) && |rescored| <= |ranked|
    requires forall k :: 0 <= k < |rescored| ==> rescored[k].score == ranked[k].score && rescored[k].idx == k
    ensures SortedBy(rescored, RankLe)
  {
    forall i, j | 0 <= i < j < |rescored| ensures RankLe(rescored[i], rescored[j]) {
      assert RankLe(ranked[i], ranked[j]);
    }
  }

  /** Ranking a leading part of the top facts again keeps it whole and in order. */
  lemma TopFactsFixed(facts: seq<string>, question: string, maxFacts: int, prefix: seq<string>)
    requires |prefix| <= |TopFacts(facts, question, maxFacts)|
    requires prefix == TopFacts(facts, question, maxFacts)[..|prefix|]
    ensures TopFacts(prefix, question, maxFacts) == prefix
  {
    var terms := ExtractQueryTerms(question);
    var pq := IsPriceQuestion(question);
    var ranked := RankedFacts(facts, question);
    RankingSorted(ScoreFacts(facts, terms, pq));
    RankedFactsFrom(facts, question);
    var top := PyPrefix(ranked, Max(1, maxFacts));
    var rescored := ScoreFacts(prefix, terms, pq);
    forall k | 0 <= k < |rescored| ensures rescored[k].score == ranked[k].score && rescored[k].idx == k {
      assert prefix[k] == top[k].line == ranked[k].line;
      assert ranked[k] in ranked;
    }
    ResortedPrefix(ranked, rescored);
    SortOfSorted(rescored, RankLe);
    assert PyPrefix(rescored, Max(1, maxFacts)) == rescored;
  }

  /** Ranking a leading part of the top relations again, against the same ids, keeps it
      whole and in order. */
  lemma TopRelationsFixed(relations: seq<string>, ids: set<string>, question: string, maxRelations: int,
                          prefix: seq<string>)
    requires |prefix| <= |TopRelations(relations, ids, question, maxRelations)|
    requires prefix == TopRelations(relations, ids, question, maxRelations)[..|prefix|]
    ensures TopRelations(prefix, ids, question, maxRelations) == prefix
  {
    var terms := ExtractQueryTerms(question);
    var ranked := RankedRelations(relations, ids, question);
    RankingSorted(ScoreRelations(relations, ids, terms));
    RankedRelationsFrom(relations, ids, question);
    var top := PyPrefix(ranked, Max(0, maxRelations));
    var rescored := ScoreRelations(prefix, ids, terms);
    forall k | 0 <= k < |rescored| ensures rescored[k].score == ranked[k].score && rescored[k].idx == k {
      assert prefix[k] == top[k].line == ranked[k].line;
      assert ranked[k] in ranked;
    }
    ResortedPrefix(ranked, rescored);
    SortOfSorted(rescored, RankLe);
    assert PyPrefix(rescored, Max(0, maxRelations)) == rescored;
  }

  /** At most one relation, within the limit, is its own top. */
  lemma TopRelationsShort(relations: seq<string>, ids: set<string>, question: string, maxRelations: int)
    requires |relations| <= 1 && |relations| <= Max(0, maxRelations)
    ensures TopRelations(relations, ids, question, maxRelations) == relations
  {
    var scored := ScoreRelations(relations, ids, ExtractQueryTerms(question));
    SortOfSorted(scored, RankLe);
    assert PyPrefix(scored, Max(0, maxRelations)) == scored;
  }

  /** Selecting again from what the budget loops kept selects exactly those lines. */
  lemma SelectOfKept(facts: seq<string>, relations: seq<string>, question: string,
                     maxFacts: int, maxRelations: int, budget: int, mode: string)
    requires facts != []
    ensures var k := Budgeted(Select(facts, relations, question, maxFacts, maxRelations, mode), budget);
      Select(k.facts, k.relations, question, maxFacts, maxRelations, mode) == k
  {
    var top := TopFacts(facts, question, maxFacts);
    var ids := IdsOf(top);
    var topR := TopRelations(relations, ids, question, maxRelations);
    var sel := Select(facts, relations, question, maxFacts, maxRelations, mode);
    SelectTopRanked(facts, relations, question, maxFacts, maxRelations, mode);
    SelectFactsOfTop(facts, relations, question, maxFacts, maxRelations, mode);
    SelectRelationsTopRanked(facts, relations, question, maxFacts, maxRelations, mode);
    StrictCutPrefix(Selection(top, topR));
    BudgetedShape(sel, budget);
    var k := Budgeted(sel, budget);
    PrefixOfPrefix(top, sel.facts, k.facts);
    TopFactsFixed(facts, question, maxFacts, k.facts);
    if k.relations == [] {
      TopRelationsShort([], IdsOf(k.facts), question, maxRelations);
    } else {
      assert k.facts == sel.facts;
      if mode == "strict" {
        TopRelationsShort(k.relations, IdsOf(k.facts), question, maxRelations);
      } else {
        PrefixOfPrefix(topR, sel.relations, k.relations);
        TopRelationsFixed(relations, ids, question, maxRelations, k.relations);
      }
    }
  }

  /** The selected lines come from the input sections. */
  lemma SelectLinesFrom(facts: seq<string>, relations: seq<string>, question: string,
                        maxFacts: int, maxRelations: int, mode: string)
    ensures var sel := Select(facts, relations, question, maxFacts, maxRelations, mode);
      && (forall l :: l in sel.facts ==> l in facts)
      && (forall l :: l in sel.relations ==> l in relations)
  {
    SelectFactsFrom(facts, relations, question, maxFacts, maxRelations, mode);
    SelectRelationsFrom(facts, relations, question, maxFacts, maxRelations, mode);
  }

  lemma SelectFactsFrom(facts: seq<string>, relations: seq<string>, question: string,
                        maxFacts: int, maxRelations: int, mode: string)
    ensures forall l :: l in Select(facts, relations, question, maxFacts, maxRelations, mode).facts ==> l in facts
  {
    var top := TopFacts(facts, question, maxFacts);
    var ranked := RankedFacts(facts, question);
    var sel := Select(facts, relations, question, maxFacts, maxRelations, mode);
    RankedFactsFrom(facts, question);
    SelectFactsOfTop(facts, relations, question, maxFacts, maxRelations, mode);
    forall l | l in sel.facts ensures l in facts {
      var k :| 0 <= k < |sel.facts| && sel.facts[k] == l;
      assert l == top[k] == ranked[k].line;
      assert ranked[k] in ranked;
    }
  }

  lemma SelectRelationsFrom(facts: seq<string>, relations: seq<string>, question: string,
                            maxFacts: int, maxRelations: int, mode: string)
    ensures forall l :: l in Select(facts, relations, question, maxFacts, maxRelations, mode).relations ==> l in relations
  {
    var top := TopFacts(facts, question, maxFacts);
    var ids := IdsOf(top);
    var topR := TopRelations(relations, ids, question, maxRelations);
    var ranked := RankedRelations(relations, ids, question);
    var sel := Select(facts, relations, question, maxFacts, maxRelations, mode);
    assert sel == if mode == "strict" then StrictCut(Selection(top, topR)) else Selection(top, topR);
    RankedRelationsFrom(relations, ids, question);
    StrictCutPrefix(Selection(top, topR));
    assert |sel.relations| <= |topR| && sel.relations == topR[..|sel.relations|];
    forall l | l in sel.relations ensures l in relations {
      var k :| 0 <= k < |sel.relations| && sel.relations[k] == l;
      assert l == topR[k] == ranked[k].line;
      assert ranked[k] in ranked;
    }
  }

  /** The final step leaves the text alone: the context is passed through whole, or the
      lines kept already fit the budget. */
  predicate FitsWithoutCut(question: string, context: string, maxFacts: int, maxRelations: int,
                           budget: int, mode: string)
  {
    context == "" || context == NoFactsSentinel ||
    var sections := SplitSections(ContextLines(context));
    if sections.facts == [] then |context| <= budget
    else
      var kept := Kept(question, sections, maxFacts, maxRelations, budget, mode);
      |Render(kept.facts, kept.relations)| <= budget
  }

  /** The kept lines of sections the loop would keep as they are can be kept as they are. */
  lemma KeptLinesOk(question: string, sections: Sections, maxFacts: int, maxRelations: int,
                    budget: int, mode: string)
    requires sections.facts != []
    requires forall l :: l in sections.facts ==> FactLineOk(l)
    requires forall l :: l in sections.relations ==> RelationLineOk(l)
    ensures var kept := Kept(question, sections, maxFacts, maxRelations, budget, mode);
      && (forall l :: l in kept.facts ==> FactLineOk(l))
      && (forall l :: l in kept.relations ==> RelationLineOk(l))
  {
    var sel := Select(sections.facts, sections.relations, question, maxFacts, maxRelations, mode);
    var kept := Budgeted(sel, budget);
    SelectLinesFrom(sections.facts, sections.relations, question, maxFacts, maxRelations, mode);
    BudgetedShape(sel, budget);
    forall l | l in kept.facts ensures FactLineOk(l) {
      assert l in sel.facts;
    }
    forall l | l in kept.relations ensures RelationLineOk(l) {
      assert l in sel.relations;
    }
  }

  /** Rendered kept lines that fit the budget are kept again, all of them. */
  lemma KeptOfRendered(question: string, sections: Sections, maxFacts: int, maxRelations: int,
                       budget: int, mode: string)
    requires sections.facts != []
    requires var kept := Kept(question, sections, maxFacts, maxRelations, budget, mode);
      && (forall l :: l in kept.facts ==> FactLineOk(l))
      && (forall l :: l in kept.relations ==> RelationLineOk(l))
      && |Render(kept.facts, kept.relations)| <= budget
    ensures var kept := Kept(question, sections, maxFacts, maxRelations, budget, mode);
      var again := SplitSections(ContextLines(Render(kept.facts, kept.relations)));
      && kept.facts != [] && again.facts == kept.facts
      && Kept(question, again, maxFacts, maxRelations, budget, mode) == kept
  {
    var sel := Select(sections.facts, sections.relations, question, maxFacts, maxRelations, mode);
    var kept := Kept(question, sections, maxFacts, maxRelations, budget, mode);
    BudgetedShape(sel, budget);
    ReparseRendered(kept.facts, kept.relations);
    SelectOfKept(sections.facts, sections.relations, question, maxFacts, maxRelations, budget, mode);
    BudgetedShape(kept, budget);
  }

  /** Kept lines that fit the budget, rendered, compress to themselves. */
  lemma CompressRenderedFixed(question: string, sections: Sections, maxFacts: int, maxRelations: int,
                              budget: int, mode: string)
    requires sections.facts != []
    requires forall l :: l in sections.facts ==> FactLineOk(l)
    requires forall l :: l in sections.relations ==> RelationLineOk(l)
    requires var kept := Kept(question, sections, maxFacts, maxRelations, budget, mode);
      |Render(kept.facts, kept.relations)| <= budget
    ensures var kept := Kept(question, sections, maxFacts, maxRelations, budget, mode);
      var out := Render(kept.facts, kept.relations);
      CompressSpec(question, out, maxFacts, maxRelations, budget, mode) == out
  {
    var kept := Kept(question, sections, maxFacts, maxRelations, budget, mode);
    var out := Render(kept.facts, kept.relations);
    KeptLinesOk(question, sections, maxFacts, maxRelations, budget, mode);
    KeptOfRendered(question, sections, maxFacts, maxRelations, budget, mode);
    CompressOfFixed(question, out, maxFacts, maxRelations, budget, mode);
  }

  /** A context that fits the budget and whose own kept lines render back to it is a
      fixed point of compression. */
  lemma CompressOfFixed(question: string, context: string, maxFacts: int, maxRelations: int,
                        budget: int, mode: string)
    requires SplitSections(ContextLines(context)).facts != []
    requires |context| <= budget
    requires var kept := Kept(question, SplitSections(ContextLines(context)), maxFacts, maxRelations, budget, mode);
      Render(kept.facts, kept.relations) == context
    ensures CompressSpec(question, context, maxFacts, maxRelations, budget, mode) == context
  {
  }

  /** Compressing a second time with the same settings changes nothing, provided the first
      pass did not have to cut the text. */
  lemma CompressIdempotent(question: string, context: string, maxFacts: int, maxRelations: int,
                           budget: int, mode: string)
    requires FitsWithoutCut(question, context, maxFacts, maxRelations, budget, mode)
    ensures var once := CompressSpec(question, context, maxFacts, maxRelations, budget, mode);
      CompressSpec(question, once, maxFacts, maxRelations, budget, mode) == once
  {
    if context != "" && context != NoFactsSentinel {
      var sections := SplitSections(ContextLines(context));
      if sections.facts != [] {
        ContextLinesClean(context);
        SectionsClean(ContextLines(context));
        CompressRenderedFixed(question, sections, maxFacts, maxRelations, budget, mode);
      }
    }
  }

  /** One fact line is its own top. */
  lemma TopFactsSingle(line: string, question: string, maxFacts: int)
    ensures TopFacts([line], question, maxFacts) == [line]
  {
    var scored := ScoreFacts([line], ExtractQueryTerms(question), IsPriceQuestion(question));
    SortOfSorted(scored, RankLe);
    assert PyPrefix(scored, Max(1, maxFacts)) == scored;
  }

  /** A context of one line that, stripped, is a single clean non-header line without a
      property list reads as that one fact. */
  lemma SectionsOfOneLine(context: string, line: string)
    requires NoBreak(context) && Strip(context) == line && line != ""
    requires !IsRelationsHeader(line) && !Contains(line, PropsMarker)
    ensures SplitSections(ContextLines(context)) == Sections([line], [], false)
  {
    SplitLinesOne(context);
    ContextOneLine(context);
    DedupeWithoutMarker(line);
    SectionsSnoc([], line);
    assert [] + [line] == [line];
  }

  /** The final cut can break idempotence. A context that is one blank and then the
      `relations:` header (in any casing) has no fact line, so a budget of 5 cuts it to
      the blank and the header's first four characters; compressing that again reads
      those four characters as a fact line and drops the blank. */
  lemma CompressCutNotIdempotent(question: string, header: string, maxFacts: int, maxRelations: int,
                                 mode: string)
    requires IsRelationsHeader(header)
    ensures var once := CompressSpec(question, [' '] + header, maxFacts, maxRelations, 5, mode);
      && once == [' '] + header[..4]
      && CompressSpec(question, once, maxFacts, maxRelations, 5, mode) == header[..4]
      && header[..4] != once
  {
    HeaderChars(header);
    CutHeaderContext(question, header, maxFacts, maxRelations, mode);
    RecompressCutHeader(question, header, maxFacts, maxRelations, mode);
  }

  /** The first pass: only a header, so the context is cut to five characters. */
  lemma CutHeaderContext(question: string, header: string, maxFacts: int, maxRelations: int, mode: string)
    requires IsRelationsHeader(header)
    ensures CompressSpec(question, [' '] + header, maxFacts, maxRelations, 5, mode) == [' '] + header[..4]
  {
    var c := [' '] + header;
    PaddedHeaderLine(header);
    SectionsOfHeaderLine(c);
    assert |c| != |NoFactsSentinel|;
    assert c[..5] == [' '] + header[..4];
  }

  /** A blank followed by the header is one line that strips to the header. */
  lemma PaddedHeaderLine(header: string)
    requires IsRelationsHeader(header)
    ensures var c := [' '] + header;
      |c| == 11 && SplitLines(c) == [c] && Strip(c) == header
  {
    HeaderChars(header);
    var c := [' '] + header;
    assert NoBreak(c) by {
      forall k | 0 <= k < |c| ensures !IsLineBreak(c[k]) { if k > 0 { assert c[k] == header[k - 1]; } }
    }
    SplitLinesOne(c);
    StripOneLeadingSpace(' ', header, c);
  }

  /** The second pass: the four characters left over read as a fact line that fits. */
  lemma RecompressCutHeader(question: string, header: string, maxFacts: int, maxRelations: int, mode: string)
    requires IsRelationsHeader(header)
    ensures CompressSpec(question, [' '] + header[..4], maxFacts, maxRelations, 5, mode) == header[..4]
  {
    HeaderChars(header);
    var line := header[..4];
    var d := [' '] + line;
    assert NoBreak(d) by {
      forall k | 0 <= k < |d| ensures !IsLineBreak(d[k]) { if k > 0 { assert d[k] == header[k - 1]; } }
    }
    StripOneLeadingSpace(' ', line, d);
    assert !IsRelationsHeader(line) by { assert |Lower(line)| == 4; }
    assert |d| != |NoFactsSentinel|;
    CompressOneFact(question, d, line, maxFacts, maxRelations, 5, mode);
  }

  /** The header line, in any casing, is ten characters with no blank and no line boundary. */
  lemma HeaderChars(header: string)
    requires IsRelationsHeader(header)
    ensures |header| == 10 && NoBreak(header)
    ensures forall k :: 0 <= k < |header| ==> !IsSpace(header[k])
  {
    forall k | 0 <= k < |header| ensures !IsLineBreak(header[k]) && !IsSpace(header[k]) {
      assert Lower(header)[k] == LowerChar(header[k]) == RelationsHeader[k];
    }
  }

  /** A context of one line that strips to the header holds no fact line. */
  lemma SectionsOfHeaderLine(context: string)
    requires SplitLines(context) == [context]
    requires Strip(context) != "" && IsRelationsHeader(Strip(context))
    ensures SplitSections(ContextLines(context)).facts == []
  {
    var line := Strip(context);
    ContextOneLine(context);
    SectionsSnoc([], line);
    assert [] + [line] == [line];
  }

  /** A context that is one line with something besides blanks reads as that line, stripped. */
  lemma ContextOneLine(context: string)
    requires SplitLines(context) == [context] && Strip(context) != ""
    ensures ContextLines(context) == [Strip(context)]
  {
    assert [context][1..] == [];
    assert StrippedNonBlank([context]) == KeepStripped(context) + StrippedNonBlank([]);
  }

  /** A one-line context whose stripped line is a plain fact line that fits the budget
      compresses to that line. */
  lemma CompressOneFact(question: string, context: string, line: string, maxFacts: int, maxRelations: int,
                        budget: int, mode: string)
    requires context != NoFactsSentinel && NoBreak(context) && Strip(context) == line && line != ""
    requires !IsRelationsHeader(line) && !Contains(line, PropsMarker) && |line| <= budget
    ensures CompressSpec(question, context, maxFacts, maxRelations, budget, mode) == line
  {
    SectionsOfOneLine(context, line);
    KeptOneFact(question, line, maxFacts, maxRelations, budget, mode);
    assert Render([line], []) == line;
  }

  /** A single fact line that fits the budget is kept, alone. */
  lemma KeptOneFact(question: string, line: string, maxFacts: int, maxRelations: int,
                    budget: int, mode: string)
    requires |line| <= budget
    ensures Kept(question, Sections([line], [], false), maxFacts, maxRelations, budget, mode) == Selection([line], [])
  {
    SelectOneFact(question, line, maxFacts, maxRelations, mode);
    assert Render([line], []) == line;
    BudgetedShape(Selection([line], []), budget);
  }

  /** A single fact line and no relation line are selected as they are. */
  lemma SelectOneFact(question: string, line: string, maxFacts: int, maxRelations: int, mode: string)
    ensures Select([line], [], question, maxFacts, maxRelations, mode) == Selection([line], [])
  {
    TopFactsSingle(line, question, maxFacts);
    TopRelationsShort([], IdsOf([line]), question, maxRelations);
  }

  // ================================================================ the procedure

  /** The loop that sorts the trimmed lines into fact and relation lines. */
  method SplitContextLines(lines: seq<string>) returns (factLines: seq<string>, relationLines: seq<string>)
    ensures factLines == SplitSections(lines).facts && relationLines == SplitSections(lines).relations
  {
    factLines, relationLines := [], [];
    var inRelations := false;
    for i := 0 to |lines|
      invariant Sections(factLines, relationLines, inRelations) == SplitSections(lines[..i])
    {
      SectionsSnoc(lines[..i], lines[i]);
      assert lines[..i + 1] == lines[..i] + [lines[i]];
      var line := lines[i];
      if IsRelationsHeader(line) {
        inRelations := true;
        continue;
      }
      if inRelations {
        relationLines := relationLines + [line];
      } else {
        factLines := factLines + [DedupeFactProperties(line)];
      }
    }
    assert lines[..|lines|] == lines;
  }

  /** The loop that scores each fact line. */
  method ScoreFactLines(factLines: seq<string>, terms: seq<string>, priceQuestion: bool)
    returns (scored: seq<Scored>)
    ensures scored == ScoreFacts(factLines, terms, priceQuestion)
  {
    scored := [];
    for idx := 0 to |factLines|
      invariant scored == ScoreFacts(factLines[..idx], terms, priceQuestion)
    {
      var line := factLines[idx];
      var low := Lower(line);
      var score := 0;
      if priceQuestion && Contains(low, PriceMarker) {
        score := score + 100;
      }
      score := score + TermHits(low, terms);
      if Contains(low, AliasMarker) {
        score := score + 2;
      }
      if Contains(low, LabelMarker) {
        score := score + 1;
      }
      assert score == FactScore(line, terms, priceQuestion);
      ScoreFactsNext(factLines, idx, terms, priceQuestion);
      scored := scored + [Scored(score, idx, line)];
    }
    assert factLines[..|factLines|] == factLines;
  }

  /** The loop that scores each relation line against the kept facts' ids. */
  method ScoreRelationLines(relationLines: seq<string>, selectedIds: set<string>, terms: seq<string>)
    returns (scored: seq<Scored>)
    ensures scored == ScoreRelations(relationLines, selectedIds, terms)
  {
    scored := [];
    for idx := 0 to |relationLines|
      invariant scored == ScoreRelations(relationLines[..idx], selectedIds, terms)
    {
      var line := relationLines[idx];
      var source := RelationSourceFromLine(line);
      var score := 0;
      if source.Some? && source.value in selectedIds {
        score := score + 10;
      }
      score := score + TermHits(Lower(line), terms);
      assert score == RelationScore(line, selectedIds, terms);
      ScoreRelationsNext(relationLines, idx, selectedIds, terms);
      scored := scored + [Scored(score, idx, line)];
    }
    assert relationLines[..|relationLines|] == relationLines;
  }

  /** The two `while` loops: pop relations, then facts, until the rendering fits. */
  method FitToBudget(facts: seq<string>, relations: seq<string>, budget: int)
    returns (keptFacts: seq<string>, keptRelations: seq<string>, rendered: string)
    ensures Selection(keptFacts, keptRelations) == Budgeted(Selection(facts, relations), budget)
    ensures rendered == Render(keptFacts, keptRelations)
  {
    keptFacts, keptRelations := facts, relations;
    rendered := Render(keptFacts, keptRelations);
    while keptRelations != [] && |rendered| > budget
      invariant DropRelations(facts, keptRelations, budget) == DropRelations(facts, relations, budget)
      invariant rendered == Render(facts, keptRelations) && keptFacts == facts
      decreases |keptRelations|
    {
      keptRelations := keptRelations[..|keptRelations| - 1];
      rendered := Render(keptFacts, keptRelations);
    }
    while |keptFacts| > 1 && |rendered| > budget
      invariant DropFacts(keptFacts, keptRelations, budget) == DropFacts(facts, keptRelations, budget)
      invariant rendered == Render(keptFacts, keptRelations)
      decreases |keptFacts|
    {
      keptFacts := keptFacts[..|keptFacts| - 1];
      rendered := Render(keptFacts, keptRelations);
    }
  }

  method CompressOntologyContext(question: string, context: string, maxFacts: int, maxRelations: int,
                                 maxContextChars: int, mode: string) returns (r: string)
    ensures r == CompressSpec(question, context, maxFacts, maxRelations, maxContextChars, mode)
  {
    if context == "" || context == NoFactsSentinel {
      return context;
    }
    var factLines, relationLines := SplitContextLines(ContextLines(context));
    if factLines == [] {
      return if |context| > maxContextChars then PyPrefix(context, maxContextChars) else context;
    }

    var terms := ExtractQueryTerms(question);
    var priceQuestion := IsPriceQuestion(question);
    var scoredFacts := ScoreFactLines(factLines, terms, priceQuestion);
    var selectedFacts := LinesOf(PyPrefix(Sort(scoredFacts, RankLe), Max(1, maxFacts)));
    assert selectedFacts == TopFacts(factLines, question, maxFacts);
    var selectedIds := IdsOf(selectedFacts);
    var scoredRelations := ScoreRelationLines(relationLines, selectedIds, terms);
    var selectedRelations := LinesOf(PyPrefix(Sort(scoredRelations, RankLe), Max(0, maxRelations)));
    assert selectedRelations == TopRelations(relationLines, selectedIds, question, maxRelations);

    if mode == "strict" {
      selectedFacts := PyPrefix(selectedFacts, Min(|selectedFacts|, 3));
      selectedRelations := PyPrefix(selectedRelations, Min(|selectedRelations|, 1));
    }
    assert Selection(selectedFacts, selectedRelations)
        == Select(factLines, relationLines, question, maxFacts, maxRelations, mode);

    var rendered;
    selectedFacts, selectedRelations, rendered := FitToBudget(selectedFacts, selectedRelations, maxContextChars);
    if |rendered| > maxContextChars {
      if maxContextChars <= 3 {
        return PyPrefix(rendered, maxContextChars);
      }
      return RStrip(rendered[..maxContextChars - 3]) + "...";
    }
    return rendered;
  }
}
