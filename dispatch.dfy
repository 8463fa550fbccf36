/**
  The method dispatcher `lookup_ontology_context_by_method` of
  src/ontology_llm/tools/sql_tools.py (and its copy `_lookup_by_method` in app.py):
  the lexical context and debug payload, then one of eight strategies on top.
 */
module Dispatch {

  import opened Wrappers
  import opened Text
  import opened Seqs
  import opened Ontology
  import opened SqlLookup
  import opened Strategies
  import opened MethodTools

  /** The key a strategy adds to the lexical debug payload, with its value. */
  datatype Extra =
    | NoExtra
    | ConstraintHits(constraints: seq<string>)
    | GraphRelations(relLines: seq<string>)
    | ReasoningPaths(pathLines: seq<string>)
    | DenseExtra(dense: DenseDebug)
    | HybridExtra(dense: DenseDebug, constraints: seq<string>)
    | VerificationEvidence(relLines: seq<string>)
    | EnrichmentExtra(targets: seq<EnrichmentTarget>)

  /** The `method_trace` dict: always `method_id`, at most one `retrieval_type` and at most
      one evidence count (`constraint_count`, `relation_evidence_count`, ...). */
  datatype Trace = Trace(methodId: string, retrievalType: Option<string>, count: Option<(string, int)>)

  datatype MethodResult = MethodResult(context: string, debug: LookupDebug, extra: Extra, trace: Trace)

  /** The `retrieval_type` the sql_tools dispatcher records for an id it does not know. */
  const DefaultLexical: string := "default-lexical"

  // ---------------------------------------------------------------- seeds

  /** `[c["id"] for c in cs if c["id"]]`: the non-empty ids, all of them;
      `NonEmptyIdsOrder` says they keep the candidates' order. */
  function NonEmptyIds(cs: seq<Candidate>): (ids: seq<string>)
    ensures |ids| <= |cs|
    ensures forall id :: id in ids ==> id != "" && exists c :: c in cs && c.id == id
    ensures forall c :: c in cs && c.id != "" ==> c.id in ids
  {
    if cs == [] then []
    else (if cs[0].id != "" then [cs[0].id] else []) + NonEmptyIds(cs[1..])
  }

  /** The kept ids come in the candidates' order: the ids of earlier candidates come
      before those of later ones. */
  lemma {:induction false} NonEmptyIdsOrder(a: seq<Candidate>, b: seq<Candidate>)
    ensures NonEmptyIds(a + b) == NonEmptyIds(a) + NonEmptyIds(b)
  {
    if a == [] {
      assert a + b == b;
    } else {
      assert (a + b)[0] == a[0];
      assert (a + b)[1..] == a[1..] + b;
      NonEmptyIdsOrder(a[1..], b);
    }
  }

  /** `seed_ids`: the non-empty ids among the first five ranked candidates. */
  function SeedIds(d: LookupDebug): seq<string> {
    NonEmptyIds(PyPrefix(d.candidates, 5))
  }

  /** The seeds are exactly the non-empty ids of the first five candidates. */
  lemma SeedIdsFromTopFive(d: LookupDebug)
    ensures |SeedIds(d)| <= 5
    ensures forall id :: id in SeedIds(d) ==>
      id != "" && exists k :: 0 <= k < 5 && k < |d.candidates| && d.candidates[k].id == id
    ensures forall k :: 0 <= k < Min(5, |d.candidates|) && d.candidates[k].id != "" ==>
      d.candidates[k].id in SeedIds(d)
  {
    var top := PyPrefix(d.candidates, 5);
    forall id | id in SeedIds(d)
      ensures exists k :: 0 <= k < 5 && k < |d.candidates| && d.candidates[k].id == id
    {
      var c :| c in top && c.id == id;
      var k :| 0 <= k < |top| && top[k] == c;
      assert d.candidates[k] == c;
    }
    forall k | 0 <= k < Min(5, |d.candidates|) && d.candidates[k].id != ""
      ensures d.candidates[k].id in SeedIds(d)
    {
      assert top[k] == d.candidates[k];
    }
  }

  // ---------------------------------------------------------------- per-method limits

  /** `max(3, limit // 2)`; `//` floors, as Dafny's `/` does for a positive divisor. */
  function ConstraintLimit(limit: int): int { Max(3, limit / 2) }
  function GraphLimit(limit: int): int { Max(6, limit * 2) }
  function PathLimit(limit: int): int { Max(6, limit) }
  function VerificationLimit(limit: int): int { Max(4, limit) }
  function EnrichmentLimit(limit: int): int { Max(3, limit) }

  // ---------------------------------------------------------------- context blocks

  /** method2's context: the constraint lines in front of the entity facts. */
  function ConstraintBlock(constraints: seq<string>, base: string): string {
    "[Constraint Facts]\n" + Join(constraints, "\n") + "\n\n[Entity Facts]\n" + base
  }

  /** method6's context: the constraint lines in front of the dense context. */
  function SymbolicBlock(constraints: seq<string>, dense: string): string {
    "[Symbolic Rules]\n" + Join(constraints, "\n") + "\n\n[Neural Retrieval]\n" + dense
  }

  /** methods 3, 4 and 7: a header line and the evidence lines after the base context. */
  function AppendSection(base: string, header: string, lines: seq<string>): string {
    base + "\n" + header + "\n" + Join(lines, "\n")
  }

  /** method8's context: the current facts, then one line per missing property. */
  function EnrichmentBlock(base: string, targets: seq<EnrichmentTarget>): string {
    "[Current Facts]\n" + base + "\n\n[Missing Property Signals]\n" + Join(EnrichmentLines(targets), "\n")
  }

  // ---------------------------------------------------------------- the dispatcher

  /** The eight strategies, and any other id. */
  datatype Strategy =
    | Lexical | Constraint | Graph | MultiHop | DenseProxy | NeuroSymbolic | Verification | Enrichment
    | Unknown

  /** Which branch of the dispatcher an id takes: the ids are compared as given. */
  function StrategyOf(methodId: string): Strategy {
    if methodId == "method1" then Lexical
    else if methodId == "method2" then Constraint
    else if methodId == "method3" then Graph
    else if methodId == "method4" then MultiHop
    else if methodId == "method5" then DenseProxy
    else if methodId == "method6" then NeuroSymbolic
    else if methodId == "method7" then Verification
    else if methodId == "method8" then Enrichment
    else Unknown
  }

  /** Exactly the eight canonical ids select a strategy. */
  lemma StrategyOfKnown(methodId: string)
    ensures StrategyOf(methodId) != Unknown <==> methodId in MethodIds
  {
  }

  /** `base` with `block` in its place when the evidence is non-empty. */
  function Gate<T>(evidence: seq<T>, base: string, block: string): string {
    if evidence == [] then base else block
  }

  /** method2: constraint facts in front of the lexical context. */
  function ConstraintResult(store: Store, methodId: string, limit: int, base: string, debug: LookupDebug): MethodResult {
    var cs := ConstraintFacts(store, ConstraintLimit(limit));
    MethodResult(Gate(cs, base, ConstraintBlock(cs, base)), debug, ConstraintHits(cs),
                 Trace(methodId, None, Some(("constraint_count", |cs|))))
  }

  /** method3: the relations touching a seed after the lexical context. */
  function GraphResult(store: Store, methodId: string, limit: int, base: string, debug: LookupDebug): MethodResult {
    var rels := RelationEvidence(store, SeedIds(debug), GraphLimit(limit));
    MethodResult(Gate(rels, base, AppendSection(base, "relations:", rels)), debug,
                 GraphRelations(rels), Trace(methodId, None, Some(("relation_evidence_count", |rels|))))
  }

  /** method4: the two-hop paths from the seeds after the lexical context. */
  function MultiHopResult(store: Store, methodId: string, limit: int, base: string, debug: LookupDebug): MethodResult {
    var paths := MultihopSpec(store, SeedIds(debug), PathLimit(limit));
    MethodResult(Gate(paths, base, AppendSection(base, "reasoning_paths:", paths)), debug,
                 ReasoningPaths(paths), Trace(methodId, None, Some(("multi_hop_path_count", |paths|))))
  }

  /** method5: the dense-proxy context in place of the lexical one. */
  function DenseResult(store: Store, question: string, methodId: string, limit: int, debug: LookupDebug): MethodResult {
    var top := DenseTop(store, question, limit);
    MethodResult(DenseText(top), debug, DenseExtra(DenseDebug(DenseTokens(question), top)),
                 Trace(methodId, Some("dense-proxy"), None))
  }

  /** method6: constraint facts in front of the dense-proxy context. */
  function NeuroSymbolicResult(store: Store, question: string, methodId: string, limit: int, debug: LookupDebug): MethodResult {
    var top := DenseTop(store, question, limit);
    var cs := ConstraintFacts(store, ConstraintLimit(limit));
    MethodResult(Gate(cs, DenseText(top), SymbolicBlock(cs, DenseText(top))), debug,
                 HybridExtra(DenseDebug(DenseTokens(question), top), cs),
                 Trace(methodId, Some("neuro-symbolic"), Some(("constraint_count", |cs|))))
  }

  /** method7: the relations touching a seed as validation evidence. */
  function VerificationResult(store: Store, methodId: string, limit: int, base: string, debug: LookupDebug): MethodResult {
    var rels := RelationEvidence(store, SeedIds(debug), VerificationLimit(limit));
    MethodResult(Gate(rels, base, AppendSection(base, "validation_evidence:", rels)), debug,
                 VerificationEvidence(rels), Trace(methodId, None, Some(("verification_evidence_count", |rels|))))
  }

  /** method8: the lexical context, then the properties with missing values. */
  function EnrichmentResult(store: Store, methodId: string, limit: int, base: string, debug: LookupDebug): MethodResult {
    var ts := EnrichmentTargets(store, EnrichmentLimit(limit));
    MethodResult(Gate(ts, base, EnrichmentBlock(base, ts)), debug, EnrichmentExtra(ts),
                 Trace(methodId, None, Some(("enrichment_target_count", |ts|))))
  }

  /** What the dispatcher returns, given the lexical context and debug payload; `fallback`
      is the `retrieval_type` recorded for an unknown id (`default-lexical` in sql_tools.py,
      none in app.py). */
  function StrategyResult(store: Store, question: string, methodId: string, limit: int,
                          fallback: Option<string>, base: string, debug: LookupDebug): MethodResult
  {
    match StrategyOf(methodId)
    case Lexical => MethodResult(base, debug, NoExtra, Trace(methodId, Some("lexical-grounding"), None))
    case Constraint => ConstraintResult(store, methodId, limit, base, debug)
    case Graph => GraphResult(store, methodId, limit, base, debug)
    case MultiHop => MultiHopResult(store, methodId, limit, base, debug)
    case DenseProxy => DenseResult(store, question, methodId, limit, debug)
    case NeuroSymbolic => NeuroSymbolicResult(store, question, methodId, limit, debug)
    case Verification => VerificationResult(store, methodId, limit, base, debug)
    case Enrichment => EnrichmentResult(store, methodId, limit, base, debug)
    case Unknown => MethodResult(base, debug, NoExtra, Trace(methodId, fallback, None))
  }

  /** The fallback `retrieval_type` only reaches the result of an unknown id. */
  lemma FallbackOnlyForUnknown(store: Store, question: string, methodId: string, limit: int,
                               f1: Option<string>, f2: Option<string>, base: string, debug: LookupDebug)
    requires StrategyOf(methodId) != Unknown
    ensures StrategyResult(store, question, methodId, limit, f1, base, debug)
         == StrategyResult(store, question, methodId, limit, f2, base, debug)
  {
  }

  /** What the dispatcher returns for a store, a question, an id and a limit. */
  function ByMethodSpec(store: Store, question: string, methodId: string, limit: int,
                        fallback: Option<string>): MethodResult
  {
    StrategyResult(store, question, methodId, limit, fallback,
                   LookupContextSpec(store, question, limit), LookupDebugSpec(store, question, limit))
  }

  /** The dispatcher itself: run the lexical lookups, then the strategy `methodId` names
      (the source's chain of `if method_id == ...` tests is `StrategyOf`). */
  method LookupByMethod(store: Store, question: string, methodId: string, limit: int,
                        fallback: Option<string>) returns (r: MethodResult)
    ensures r == ByMethodSpec(store, question, methodId, limit, fallback)
  {
    var base := LookupOntologyContext(store, question, limit);
    var debug := LookupOntologyDebug(store, question, limit);
    var seeds := SeedIds(debug);
    match StrategyOf(methodId)
    case Lexical =>
      r := MethodResult(base, debug, NoExtra, Trace(methodId, Some("lexical-grounding"), None));
    case Constraint =>
      var cs := ConstraintFacts(store, ConstraintLimit(limit));
      var context := base;
      if cs != [] {
        context := ConstraintBlock(cs, base);
      }
      r := MethodResult(context, debug, ConstraintHits(cs), Trace(methodId, None, Some(("constraint_count", |cs|))));
    case Graph =>
      var rels := RelationEvidence(store, seeds, GraphLimit(limit));
      var context := base;
      if rels != [] {
        context := AppendSection(base, "relations:", rels);
      }
      r := MethodResult(context, debug, GraphRelations(rels),
                        Trace(methodId, None, Some(("relation_evidence_count", |rels|))));
    case MultiHop =>
      var paths := MultihopPaths(store, seeds, PathLimit(limit));
      var context := base;
      if paths != [] {
        context := AppendSection(base, "reasoning_paths:", paths);
      }
      r := MethodResult(context, debug, ReasoningPaths(paths),
                        Trace(methodId, None, Some(("multi_hop_path_count", |paths|))));
    case DenseProxy =>
      var dense, denseDebug := DenseProxyContext(store, question, limit);
      r := MethodResult(dense, debug, DenseExtra(denseDebug), Trace(methodId, Some("dense-proxy"), None));
    case NeuroSymbolic =>
      var dense, denseDebug := DenseProxyContext(store, question, limit);
      var cs := ConstraintFacts(store, ConstraintLimit(limit));
      var context := dense;
      if cs != [] {
        context := SymbolicBlock(cs, dense);
      }
      r := MethodResult(context, debug, HybridExtra(denseDebug, cs),
                        Trace(methodId, Some("neuro-symbolic"), Some(("constraint_count", |cs|))));
    case Verification =>
      var rels := RelationEvidence(store, seeds, VerificationLimit(limit));
      var context := base;
      if rels != [] {
        context := AppendSection(base, "validation_evidence:", rels);
      }
      r := MethodResult(context, debug, VerificationEvidence(rels),
                        Trace(methodId, None, Some(("verification_evidence_count", |rels|))));
    case Enrichment =>
      var ts := EnrichmentTargets(store, EnrichmentLimit(limit));
      var context := base;
      if ts != [] {
        context := EnrichmentBlock(base, ts);
      }
      r := MethodResult(context, debug, EnrichmentExtra(ts),
                        Trace(methodId, None, Some(("enrichment_target_count", |ts|))));
    case Unknown =>
      r := MethodResult(base, debug, NoExtra, Trace(methodId, fallback, None));
  }

  /** `lookup_ontology_context_by_method` of sql_tools.py. */
  method LookupOntologyContextByMethod(store: Store, question: string, methodId: string, limit: int)
    returns (r: MethodResult)
    ensures r == ByMethodSpec(store, question, methodId, limit, Some(DefaultLexical))
  {
    r := LookupByMethod(store, question, methodId, limit, Some(DefaultLexical));
  }

  // ---------------------------------------------------------------- what the dispatcher promises

  /** Every result carries the lexical debug payload and the id it was asked for. */
  lemma DebugAndIdKept(store: Store, question: string, methodId: string, limit: int, fallback: Option<string>)
    ensures var r := ByMethodSpec(store, question, methodId, limit, fallback);
      r.debug == LookupDebugSpec(store, question, limit) && r.trace.methodId == methodId
  {
    DebugAndIdKeptFor(store, question, methodId, limit, fallback,
                      LookupContextSpec(store, question, limit), LookupDebugSpec(store, question, limit));
  }

  lemma DebugAndIdKeptFor(store: Store, question: string, methodId: string, limit: int,
                          fallback: Option<string>, base: string, debug: LookupDebug)
    ensures var r := StrategyResult(store, question, methodId, limit, fallback, base, debug);
      r.debug == debug && r.trace.methodId == methodId
  {
    var r := StrategyResult(store, question, methodId, limit, fallback, base, debug);
    match StrategyOf(methodId)
    case Lexical =>
    case Constraint => assert r == ConstraintResult(store, methodId, limit, base, debug);
    case Graph => assert r == GraphResult(store, methodId, limit, base, debug);
    case MultiHop => assert r == MultiHopResult(store, methodId, limit, base, debug);
    case DenseProxy => assert r == DenseResult(store, question, methodId, limit, debug);
    case NeuroSymbolic => assert r == NeuroSymbolicResult(store, question, methodId, limit, debug);
    case Verification => assert r == VerificationResult(store, methodId, limit, base, debug);
    case Enrichment => assert r == EnrichmentResult(store, methodId, limit, base, debug);
    case Unknown =>
  }

  /** method1 returns the lexical context unchanged, typed `lexical-grounding`; an id outside
      the eight does too, with only the fallback type in its trace and no extra key. */
  lemma BaseMethodsKeepContext(store: Store, question: string, methodId: string, limit: int,
                               fallback: Option<string>)
    requires methodId == "method1" || methodId !in MethodIds
    ensures var r := ByMethodSpec(store, question, methodId, limit, fallback);
      r.context == LookupContextSpec(store, question, limit) && r.extra == NoExtra && r.trace.count == None
      && r.trace.retrievalType == (if methodId == "method1" then Some("lexical-grounding") else fallback)
  {
    StrategyOfKnown(methodId);
  }

  /** The strategies that add evidence only when they found some: methods 2, 3, 4, 7 and 8. */
  predicate IsGated(s: Strategy) {
    s == Constraint || s == Graph || s == MultiHop || s == Verification || s == Enrichment
  }

  /** For a gated strategy the trace counts its evidence, and the lexical context is
      replaced exactly when that count is positive. */
  lemma GatedContextIffEvidence(store: Store, question: string, methodId: string, limit: int,
                                fallback: Option<string>)
    requires IsGated(StrategyOf(methodId))
    ensures var r := ByMethodSpec(store, question, methodId, limit, fallback);
      r.trace.count.Some? && r.trace.count.value.1 >= 0
      && (r.context == LookupContextSpec(store, question, limit) <==> r.trace.count.value.1 == 0)
  {
    GatedIffFor(store, question, methodId, limit, fallback,
                LookupContextSpec(store, question, limit), LookupDebugSpec(store, question, limit));
  }

  /** The same, whatever lexical context and debug payload the strategy starts from. */
  lemma GatedIffFor(store: Store, question: string, methodId: string, limit: int,
                    fallback: Option<string>, base: string, debug: LookupDebug)
    requires IsGated(StrategyOf(methodId))
    ensures var r := StrategyResult(store, question, methodId, limit, fallback, base, debug);
      r.trace.count.Some? && r.trace.count.value.1 >= 0
      && (r.context == base <==> r.trace.count.value.1 == 0)
  {
    var seeds := SeedIds(debug);
    var r := StrategyResult(store, question, methodId, limit, fallback, base, debug);
    match StrategyOf(methodId)
    case Constraint =>
      var cs := ConstraintFacts(store, ConstraintLimit(limit));
      GateIff(cs, base, ConstraintBlock(cs, base));
      assert r == ConstraintResult(store, methodId, limit, base, debug);
    case Graph =>
      var rels := RelationEvidence(store, seeds, GraphLimit(limit));
      GateIff(rels, base, AppendSection(base, "relations:", rels));
      assert r == GraphResult(store, methodId, limit, base, debug);
    case MultiHop =>
      var paths := MultihopSpec(store, seeds, PathLimit(limit));
      GateIff(paths, base, AppendSection(base, "reasoning_paths:", paths));
      assert r == MultiHopResult(store, methodId, limit, base, debug);
    case Verification =>
      var rels := RelationEvidence(store, seeds, VerificationLimit(limit));
      GateIff(rels, base, AppendSection(base, "validation_evidence:", rels));
      assert r == VerificationResult(store, methodId, limit, base, debug);
    case Enrichment =>
      var ts := EnrichmentTargets(store, EnrichmentLimit(limit));
      GateIff(ts, base, EnrichmentBlock(base, ts));
      assert r == EnrichmentResult(store, methodId, limit, base, debug);
  }

  /** A gate keeps the base exactly when there is no evidence, as long as the block is longer. */
  lemma GateIff<T>(evidence: seq<T>, base: string, block: string)
    requires |block| > |base|
    ensures Gate(evidence, base, block) == base <==> |evidence| == 0
  {
  }

  /** The most evidence lines a strategy can report for a given limit (none for the
      strategies that report no count). */
  function EvidenceCap(s: Strategy, limit: int): int {
    match s
    case Constraint | NeuroSymbolic => ConstraintLimit(limit)
    case Graph => GraphLimit(limit)
    case MultiHop => 2 * PathLimit(limit)
    case Verification => VerificationLimit(limit)
    case Enrichment => EnrichmentLimit(limit)
    case _ => 0
  }

  /** The evidence count in a trace, 0 when it has none. */
  function EvidenceCount(r: MethodResult): int {
    if r.trace.count.Some? then r.trace.count.value.1 else 0
  }

  lemma ConstraintCount(store: Store, limit: int)
    ensures 0 <= |ConstraintFacts(store, ConstraintLimit(limit))| <= ConstraintLimit(limit)
  {
    ConstraintFactsSound(store, ConstraintLimit(limit));
  }

  lemma RelationCount(store: Store, seeds: seq<string>, limit: int)
    requires limit >= 0
    ensures |RelationEvidence(store, seeds, limit)| <= limit
  {
    EvidenceRelationsSound(store, seeds, limit);
  }

  lemma EnrichmentCount(store: Store, limit: int)
    ensures |EnrichmentTargets(store, EnrichmentLimit(limit))| <= EnrichmentLimit(limit)
  {
    EnrichmentTargetsSound(store, EnrichmentLimit(limit));
  }

  /** Each strategy's evidence stays within the limit it was queried with, whatever the
      lexical context and debug payload it starts from. */
  lemma EvidenceWithinLimits(store: Store, question: string, methodId: string, limit: int,
                             fallback: Option<string>, base: string, debug: LookupDebug)
    ensures 0 <= EvidenceCount(StrategyResult(store, question, methodId, limit, fallback, base, debug))
                <= EvidenceCap(StrategyOf(methodId), limit)
  {
    match StrategyOf(methodId)
    case Constraint => ConstraintWithin(store, question, methodId, limit, fallback, base, debug);
    case NeuroSymbolic => ConstraintWithin(store, question, methodId, limit, fallback, base, debug);
    case Graph => RelationsWithin(store, question, methodId, limit, fallback, base, debug);
    case Verification => RelationsWithin(store, question, methodId, limit, fallback, base, debug);
    case MultiHop => PathsWithin(store, question, methodId, limit, fallback, base, debug);
    case Enrichment => EnrichmentWithin(store, question, methodId, limit, fallback, base, debug);
    case Lexical => NoCountWithin(store, question, methodId, limit, fallback, base, debug);
    case DenseProxy => NoCountWithin(store, question, methodId, limit, fallback, base, debug);
    case Unknown => NoCountWithin(store, question, methodId, limit, fallback, base, debug);
  }

  lemma ConstraintWithin(store: Store, question: string, methodId: string, limit: int,
                         fallback: Option<string>, base: string, debug: LookupDebug)
    requires StrategyOf(methodId) == Constraint || StrategyOf(methodId) == NeuroSymbolic
    ensures 0 <= EvidenceCount(StrategyResult(store, question, methodId, limit, fallback, base, debug))
                <= ConstraintLimit(limit)
  {
    ConstraintCount(store, limit);
    var r := StrategyResult(store, question, methodId, limit, fallback, base, debug);
    if StrategyOf(methodId) == Constraint {
      assert r == ConstraintResult(store, methodId, limit, base, debug);
    } else {
      assert r == NeuroSymbolicResult(store, question, methodId, limit, debug);
    }
  }

  lemma RelationsWithin(store: Store, question: string, methodId: string, limit: int,
                        fallback: Option<string>, base: string, debug: LookupDebug)
    requires StrategyOf(methodId) == Graph || StrategyOf(methodId) == Verification
    ensures 0 <= EvidenceCount(StrategyResult(store, question, methodId, limit, fallback, base, debug))
                <= EvidenceCap(StrategyOf(methodId), limit)
  {
    var r := StrategyResult(store, question, methodId, limit, fallback, base, debug);
    if StrategyOf(methodId) == Graph {
      RelationCount(store, SeedIds(debug), GraphLimit(limit));
      assert r == GraphResult(store, methodId, limit, base, debug);
    } else {
      RelationCount(store, SeedIds(debug), VerificationLimit(limit));
      assert r == VerificationResult(store, methodId, limit, base, debug);
    }
  }

  lemma PathsWithin(store: Store, question: string, methodId: string, limit: int,
                    fallback: Option<string>, base: string, debug: LookupDebug)
    requires StrategyOf(methodId) == MultiHop
    ensures 0 <= EvidenceCount(StrategyResult(store, question, methodId, limit, fallback, base, debug))
                <= 2 * PathLimit(limit)
  {
    MultihopCap(store, SeedIds(debug), PathLimit(limit));
    assert StrategyResult(store, question, methodId, limit, fallback, base, debug)
        == MultiHopResult(store, methodId, limit, base, debug);
  }

  lemma EnrichmentWithin(store: Store, question: string, methodId: string, limit: int,
                         fallback: Option<string>, base: string, debug: LookupDebug)
    requires StrategyOf(methodId) == Enrichment
    ensures 0 <= EvidenceCount(StrategyResult(store, question, methodId, limit, fallback, base, debug))
                <= EnrichmentLimit(limit)
  {
    EnrichmentCount(store, limit);
    assert StrategyResult(store, question, methodId, limit, fallback, base, debug)
        == EnrichmentResult(store, methodId, limit, base, debug);
  }

  /** method1, method5 and an unknown id report no count. */
  lemma NoCountWithin(store: Store, question: string, methodId: string, limit: int,
                      fallback: Option<string>, base: string, debug: LookupDebug)
    requires StrategyOf(methodId) in {Lexical, DenseProxy, Unknown}
    ensures EvidenceCount(StrategyResult(store, question, methodId, limit, fallback, base, debug)) == 0
  {
    if StrategyOf(methodId) == DenseProxy {
      assert StrategyResult(store, question, methodId, limit, fallback, base, debug)
          == DenseResult(store, question, methodId, limit, debug);
    }
  }

  /** method5 ignores the lexical context: it is the dense context alone. */
  lemma DenseIgnoresBase(store: Store, question: string, methodId: string, limit: int, fallback: Option<string>)
    requires StrategyOf(methodId) == DenseProxy
    ensures var r := ByMethodSpec(store, question, methodId, limit, fallback);
      r.context == DenseText(DenseTop(store, question, limit))
      && r.extra == DenseExtra(DenseDebug(DenseTokens(question), DenseTop(store, question, limit)))
  {
    var base := LookupContextSpec(store, question, limit);
    var debug := LookupDebugSpec(store, question, limit);
    assert ByMethodSpec(store, question, methodId, limit, fallback)
        == StrategyResult(store, question, methodId, limit, fallback, base, debug)
        == DenseResult(store, question, methodId, limit, debug);
  }

  /** A store without instances gives the sentinel whatever the method: no seeds, no
      constraint instances, no dense rows and no enrichment targets. */
  lemma EmptyStoreSentinel(store: Store, question: string, methodId: string, limit: int,
                           fallback: Option<string>)
    requires store.instances == []
    ensures ByMethodSpec(store, question, methodId, limit, fallback).context == NoFactsSentinel
  {
    EmptyStoreContext(store, question, limit);
    var debug := LookupDebugSpec(store, question, limit);
    assert debug.candidates == [];
    assert SeedIds(debug) == [];
    EmptyStoreFor(store, question, methodId, limit, fallback, NoFactsSentinel, debug);
  }

  /** The same from any debug payload without seeds, once the lexical context is the sentinel. */
  lemma EmptyStoreFor(store: Store, question: string, methodId: string, limit: int,
                      fallback: Option<string>, base: string, debug: LookupDebug)
    requires store.instances == [] && base == NoFactsSentinel && SeedIds(debug) == []
    ensures StrategyResult(store, question, methodId, limit, fallback, base, debug).context == NoFactsSentinel
  {
    EmptyStoreEvidence(store, question, limit);
    var seeds := SeedIds(debug);
    var r := StrategyResult(store, question, methodId, limit, fallback, base, debug);
    match StrategyOf(methodId)
    case Lexical =>
    case Constraint =>
      assert r == ConstraintResult(store, methodId, limit, base, debug);
    case Graph =>
      assert r == GraphResult(store, methodId, limit, base, debug);
    case MultiHop =>
      assert r == MultiHopResult(store, methodId, limit, base, debug);
    case DenseProxy =>
      assert r == DenseResult(store, question, methodId, limit, debug);
    case NeuroSymbolic =>
      assert r == NeuroSymbolicResult(store, question, methodId, limit, debug);
    case Verification =>
      assert r == VerificationResult(store, methodId, limit, base, debug);
    case Enrichment =>
      assert r == EnrichmentResult(store, methodId, limit, base, debug);
    case Unknown =>
  }

  /** A store without instances yields no evidence for any strategy. */
  lemma EmptyStoreEvidence(store: Store, question: string, limit: int)
    requires store.instances == []
    ensures ConstraintFacts(store, ConstraintLimit(limit)) == []
    ensures RelationEvidence(store, [], GraphLimit(limit)) == []
    ensures RelationEvidence(store, [], VerificationLimit(limit)) == []
    ensures MultihopSpec(store, [], PathLimit(limit)) == []
    ensures DenseTop(store, question, limit) == []
    ensures EnrichmentTargets(store, EnrichmentLimit(limit)) == []
  {
    assert AllRows(store) == [];
  }
}
