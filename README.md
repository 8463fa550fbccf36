# Ontology-grounded retrieval and prompt budgeting, in Dafny

This project models the retrieval, context-compression and prompt-budget engine of the
`ontology_llm` package. That engine is a chat pipeline that answers a question in one of eight
"methods". Each method retrieves facts about products, rules and relations from an ontology
held in SQLite, compresses them to a character budget, and wraps them in a method-specific
prompt. The model also covers the dashboard summaries built over the same ontology files.

The modules follow the package's files:

| module | file it models | what it holds |
|---|---|---|
| `Text`, `Seqs`, `Sorting`, `Wrappers` | – | Python string and list idioms the code relies on: `strip`, `lower` (ASCII), `find`/`rfind`, `split`, `splitlines`, `join`, `int()`/`str()`, `dict.fromkeys`, slicing, a stable sort. |
| `Ontology` | `tools/sql_tools.py` (schema, queries) | The three tables as sequences of records, and the lookup query's `WHERE`/`GROUP BY`/`LIMIT`. |
| `SqlLookup` | `tools/sql_tools.py` | Term extraction, the field-weighted debug scorer, the plain context renderer, price questions and the priority price fact. |
| `Strategies` | `tools/sql_tools.py`, `app.py` | Constraint facts, relation evidence, two-hop paths, the dense proxy scorer and enrichment targets. app.py holds identical copies of these (`_multihop_paths` at app.py:153-190, `_dense_proxy_context` at app.py:193-247), modelled by the same members. |
| `Dispatch` | `tools/sql_tools.py` | `lookup_ontology_context_by_method`, the eight-way strategy dispatch. |
| `MethodTools` | `tools/method_tools.py` | Method ids, id normalisation and system prompts. |
| `PromptTools`, `Compression` | `tools/prompt_tools.py` | Environment settings, property de-duplication, line parsers, the context compressor and the token heuristic. |
| `App` | `app.py` | Stage events, the app's own dispatcher and prompts, tool replies, and one turn up to the model call. |
| `Dashboard` | `dashboard_service.py` | The ontology snapshot, reflection, blueprint, method DAG and readiness flags. |

Code that loops and appends in the source is modelled as methods whose loops carry
invariants. Each method's `ensures` ties its result to a specification function. The
properties the source promises are proved as lemmas about those functions. Examples:
- `LookupOntologyDebug`, `MultihopPaths`, `DenseProxyContext` and `CompressOntologyContext`;
- `FitToBudget`, whose two `while` loops pop relations and then facts;
- `LoadSnapshot` and `BuildMethodDag`, whose per-stage lane counters live in a map.

A SQLite query is modelled as a function over the tables. Rows come back in the order the
tables hold them.

The model follows the code wherever a reader might assume otherwise:
- The debug scorer adds the field weights once per matching term
  (`SqlLookup.CandidateScoreBounds`).
- The plain context's relation block has no `ORDER BY` and matches only the relation's source
  (`Ontology.RelationsFrom`).
- The constraint query also accepts a `template` property key
  (`Strategies.TemplateKeyQualifies`).
- The compressor treats the `reasoning_paths:` and `validation_evidence:` blocks as fact lines,
  because only `relations:` switches sections (`Compression.SectionsAfterHeader`).
- app.py's dispatcher records no `retrieval_type` for an unknown id, where sql_tools.py records
  `default-lexical` (`App.AppUnknownIdTrace`).
- app.py's system prompt is the bare method prompt, without the global guard
  (`App.AppSystemPromptUnguarded`).
- Compressing a compressor's output again can change it, even when that output fits the
  budget. A context with no fact line is cut as raw text, and the cut text can read as a fact
  line the second time (`Compression.CompressCutNotIdempotent`). Compression is idempotent when
  no cut was needed (`Compression.CompressIdempotent`).

## Model

| member | source | states |
|---|---|---|
| Text.Lower | src/ontology_llm/tools/sql_tools.py:111 | Keeps the length and lowers every ASCII upper-case letter; the result has no upper-case letter left. |
| Text.LowerAppend | src/ontology_llm/tools/sql_tools.py:246-249 | Lower-casing distributes over concatenation. |
| Text.Strip | src/ontology_llm/tools/sql_tools.py:111 | The result is no longer than the input and neither starts nor ends with whitespace (the slice property is `Text.StripSlice`). |
| Text.StripSlice | src/ontology_llm/tools/sql_tools.py:111 | The result is a contiguous slice of the input, and everything cut off on either side is whitespace. |
| Text.StripEmptyIff | src/ontology_llm/tools/prompt_tools.py:80 | A line strips to "" exactly when it is all whitespace. |
| Text.Find | src/ontology_llm/tools/prompt_tools.py:37 | -1 iff the pattern does not occur; otherwise the first position where it occurs. |
| Text.FindFrom | src/ontology_llm/tools/prompt_tools.py:37 | -1 only when the pattern occurs nowhere from the start position on; otherwise its first occurrence there. |
| Text.RFindChar | src/ontology_llm/tools/prompt_tools.py:40 | -1 iff the character does not occur; otherwise the position of its last occurrence. |
| Text.SplitAround | src/ontology_llm/tools/prompt_tools.py:45 | Splitting `a + sep + b` is splitting `a`, then `b`. |
| Text.Split | src/ontology_llm/tools/prompt_tools.py:45 | At least one piece, and no piece contains the separator. |
| Text.JoinStartsWith | src/ontology_llm/app.py:451 | A join starts with its first part. |
| Text.JoinEndsWith | src/ontology_llm/app.py:451 | A join of two or more parts ends with the separator and the last part. |
| Text.ParseIntOfIntToString | src/ontology_llm/tools/prompt_tools.py:20 | `int(str(i)) == i` for every integer. |
| Text.NatToString | src/ontology_llm/dashboard_service.py:405 | `str(n)` is a non-empty run of decimal digits. |
| Text.DigitsValueOfNatToString | src/ontology_llm/dashboard_service.py:405 | The digits of `str(n)` read back as `n`. |
| Text.ParseInt | src/ontology_llm/tools/prompt_tools.py:20 | `int()` succeeds only on non-empty text. |
| Seqs.Dedupe | src/ontology_llm/tools/sql_tools.py:117 | `list(dict.fromkeys(s))`: no repeats, the same elements, no longer. |
| Seqs.DedupePrefix | src/ontology_llm/tools/sql_tools.py:117 | First-occurrence order: de-duplicating a prefix gives a prefix of the result. |
| Seqs.DedupeIdempotent | src/ontology_llm/tools/prompt_tools.py:46 | De-duplicating twice is de-duplicating once. |
| Seqs.PyPrefix | src/ontology_llm/tools/prompt_tools.py:113 | `s[:n]` is a prefix, of length `min(n, len s)` for `n >= 0`. |
| Seqs.SqlLimit | src/ontology_llm/tools/sql_tools.py:40-48 | `LIMIT n` keeps a prefix of `n` rows; a negative limit keeps all of them. |
| Sorting.SortSorted | src/ontology_llm/tools/sql_tools.py:209 | Sorting by a total preorder yields a sorted permutation of the input. |
| Sorting.SortedUnique | src/ontology_llm/tools/sql_tools.py:201-208 | Under a total order there is only one sorted permutation, so the ranking does not depend on the input order. |
| Ontology.MatchingInstances | src/ontology_llm/tools/sql_tools.py:121-137 | The lookup's `WHERE` keeps exactly the instances one of whose five columns contains some term. |
| Ontology.EmptyTermMatchesAll | src/ontology_llm/tools/sql_tools.py:118 | With the `[""]` term list, every instance matches. |
| Ontology.RowsOf | src/ontology_llm/tools/sql_tools.py:40-48 | One joined fact row per instance, in order. |
| Ontology.RelationsFrom | src/ontology_llm/tools/sql_tools.py:50-54 | The plain context's relation query keeps exactly the relations whose source is a returned id. |
| Ontology.RelationsTouching | src/ontology_llm/tools/sql_tools.py:323 | The evidence query keeps exactly the relations whose source or target is a seed. |
| SqlLookup.ExtractQueryTerms | src/ontology_llm/tools/sql_tools.py:110-118 | Never empty, no repeats, all lower-case; either `[""]` or all non-empty; the non-empty terms are exactly those of the raw list. |
| SqlLookup.ExtractLowerIdempotent | src/ontology_llm/tools/sql_tools.py:110-118 | A question and its lower-cased form give the same terms, so extraction is idempotent on its own lower-case output: `strip()` and the run pattern both commute with lower-casing. |
| SqlLookup.ExtractQueryTermsShape | src/ontology_llm/tools/sql_tools.py:111-118 | The first term is the trimmed, lower-cased question; every later term is a lower-cased run of at least two term characters; and, as `dict.fromkeys` keeps first occurrences, of two terms the earlier one first occurs earlier in the raw list. |
| SqlLookup.BuildLookupParams | src/ontology_llm/tools/sql_tools.py:121-137 | Five `%term%` patterns per term, in term order. |
| SqlLookup.LikePattern | src/ontology_llm/tools/sql_tools.py:135 | The `%term%` pattern wraps the term. |
| SqlLookup.ScoreRow | src/ontology_llm/tools/sql_tools.py:152-194 | One row's candidate record; each hit term's counter goes up by one, and no other counter changes. |
| SqlLookup.AddFieldHits | src/ontology_llm/tools/sql_tools.py:173-184 | A hit term records exactly the fields it occurs in and adds their weights (3, 1, 4, 2), which come to more than zero. |
| SqlLookup.ScoreRows | src/ontology_llm/tools/sql_tools.py:150-194 | One candidate per row in row order; each term's counter is the number of rows it hits. |
| SqlLookup.LookupOntologyDebug | src/ontology_llm/tools/sql_tools.py:140-214 | Equals the debug specification: terms, prioritised terms, ranked candidates. |
| SqlLookup.CandidateLeTotal | src/ontology_llm/tools/sql_tools.py:209 | Score descending, then id ascending, is a total preorder. |
| SqlLookup.PriorityLeTotalOrder | src/ontology_llm/tools/sql_tools.py:201-208 | Hits descending, then length descending, then alphabetical, is a total order. |
| SqlLookup.DebugCandidatesRanked | src/ontology_llm/tools/sql_tools.py:150-209 | The candidates are the scored rows, reordered, sorted by score and then id. |
| SqlLookup.HitTermsIff | src/ontology_llm/tools/sql_tools.py:161-171 | A term is listed as matched iff it is non-empty and occurs in one of the four fields. |
| SqlLookup.FieldSetIff | src/ontology_llm/tools/sql_tools.py:170-182 | A field is listed as matched iff some non-empty term occurs in it. |
| SqlLookup.TermsScoreBounds | src/ontology_llm/tools/sql_tools.py:163-182 | Each term adds 0 to 10 points, and the total is positive iff some term hits the row. |
| SqlLookup.CandidateScoreBounds | src/ontology_llm/tools/sql_tools.py:163-186 | A row's score lies between 0 and ten points per term plus two bonus points. |
| SqlLookup.SortedCountsExact | src/ontology_llm/tools/sql_tools.py:201-208 | After sorting, every pair still carries its term's hit count. |
| SqlLookup.SortedCountsTerms | src/ontology_llm/tools/sql_tools.py:201-208 | Sorting keeps the set of terms. |
| SqlLookup.TermCounts | src/ontology_llm/tools/sql_tools.py:201-206 | One (term, hit count) pair per term, in term order. |
| SqlLookup.NonEmptyKeysSorted | src/ontology_llm/tools/sql_tools.py:201-208 | Dropping the empty term keeps the ranking order. |
| SqlLookup.PrioritizedTermsOrdered | src/ontology_llm/tools/sql_tools.py:201-208 | The prioritised terms are exactly the non-empty query terms, ordered by hits, then length, then alphabet. |
| SqlLookup.LookupOntologyContext | src/ontology_llm/tools/sql_tools.py:217-243 | Equals the context specification built from the lookup rows and their relations. |
| SqlLookup.ContextSentinelIff | src/ontology_llm/tools/sql_tools.py:227-243 | The "no facts" sentinel comes back iff no row matched; otherwise the text opens with the first fact line. |
| SqlLookup.EmptyStoreContext | src/ontology_llm/tools/sql_tools.py:227-228 | Over an empty store every question gets the sentinel. |
| SqlLookup.PriceQuestionExtend | src/ontology_llm/tools/sql_tools.py:246-249 | A price question stays one whatever text surrounds it. |
| SqlLookup.PriceQuestionUpperCase | src/ontology_llm/tools/sql_tools.py:247 | English keywords match in any case. |
| SqlLookup.PriceQuestionCaseBlind | src/ontology_llm/tools/sql_tools.py:246-249 | A question is a price question iff its lower-cased form is. |
| SqlLookup.PriceHits | src/ontology_llm/tools/sql_tools.py:56-64 | The price join yields exactly the `price_krw` properties of instances that match some term. |
| SqlLookup.PriceProps | src/ontology_llm/tools/sql_tools.py:56-64 | Exactly the `price_krw` properties of the given instance. |
| SqlLookup.PriceFactGrounded | src/ontology_llm/tools/sql_tools.py:252-286 | A price fact always comes from a stored, non-NULL `price_krw` value of a stored instance that matches a query term, and names that instance and value. |
| SqlLookup.PriceFactNone | src/ontology_llm/tools/sql_tools.py:252-286 | No price fact when no instance matching a term has a `price_krw` property. |
| SqlLookup.PriceFactSome | src/ontology_llm/tools/sql_tools.py:252-286 | A price fact whenever some matching instance has a `price_krw` property and none of those values is NULL. |
| SqlLookup.NoPriceNoFact | src/ontology_llm/tools/sql_tools.py:282-286 | Without any `price_krw` property there is no price fact. |
| Strategies.ConstraintInstances | src/ontology_llm/tools/sql_tools.py:295-301 | Exactly the instances with a constraint class or a constraint property key. |
| Strategies.ConstraintFactsSound | src/ontology_llm/tools/sql_tools.py:289-307 | At most `limit` lines, each the line of a constraint instance. |
| Strategies.ConstraintFactsComplete | src/ontology_llm/tools/sql_tools.py:289-307 | Under the limit, every constraint instance is listed. |
| Strategies.TemplateKeyQualifies | src/ontology_llm/tools/sql_tools.py:300 | A `Template` property alone makes an instance a constraint. |
| Strategies.RelLeTotalOrder | src/ontology_llm/tools/sql_tools.py:324 | `ORDER BY source_id, type, target_id` is a total order. |
| Strategies.EvidenceRelationsSound | src/ontology_llm/tools/sql_tools.py:310-329 | Sorted, at most `limit`, each touching a seed; no seeds gives nothing. With seeds and `limit >= 0`: exactly `min(limit, #touching)` edges, and every touching edge left out sorts no earlier than each edge reported. |
| Strategies.EvidenceUnlimited | src/ontology_llm/tools/sql_tools.py:318-326 | With no limit, the evidence is a permutation of every relation touching a seed. |
| Strategies.RelationEvidenceSound | src/ontology_llm/tools/sql_tools.py:310-329 | At most `limit` lines, each the rendered line of a stored relation touching a seed; no seeds gives no lines. With seeds and `limit >= 0`: exactly `min(limit, #touching)` lines; when every touching edge fits under the limit, each one's line is reported. |
| Strategies.GroupBySource | src/ontology_llm/tools/sql_tools.py:365-367 | Each source maps to its second-hop relations in order; a source that is absent has none. |
| Strategies.Chained | src/ontology_llm/tools/sql_tools.py:365-369 | The continuations of a first hop are exactly the second-hop relations leaving its target. |
| Strategies.EdgeLines | src/ontology_llm/tools/sql_tools.py:368-374 | A first-hop edge with no continuation gives its own line; otherwise one chained line per continuation. |
| Strategies.MultihopPaths | src/ontology_llm/tools/sql_tools.py:332-375 | Equals the two-hop path specification. |
| Strategies.EdgePathsShape | src/ontology_llm/tools/sql_tools.py:368-374 | A continued edge never appears alone, and each of its lines is a genuine two-hop chain. |
| Strategies.MultihopCap | src/ontology_llm/tools/sql_tools.py:337-375 | At most `2 * per_hop` paths; no seeds or no first hop gives none. |
| Strategies.MultihopChainExample | src/ontology_llm/tools/sql_tools.py:368-374 | Edges A -> B -> C, with A other than B, yield the one chained path. |
| Strategies.MultihopSingleHopExample | src/ontology_llm/tools/sql_tools.py:370-372 | A lone edge yields its own line. |
| Strategies.DenseTokens | src/ontology_llm/tools/sql_tools.py:383 | Exactly the query terms of length at least 2. |
| Strategies.DenseScored | src/ontology_llm/tools/sql_tools.py:393-427 | Exactly the rows with a positive score, each scored. |
| Strategies.ScoreDenseRow | src/ontology_llm/tools/sql_tools.py:397-426 | One row's per-token loop equals its dense candidate. |
| Strategies.ScoreDenseRows | src/ontology_llm/tools/sql_tools.py:393-427 | The row loop keeps exactly the positively scored candidates, in row order. |
| Strategies.DenseScoredFromStore | src/ontology_llm/tools/sql_tools.py:386-427 | Every scored candidate has a positive score and comes from a stored instance. |
| Strategies.DenseProxyContext | src/ontology_llm/tools/sql_tools.py:378-436 | Equals the dense specification: its text and debug record for the top rows. |
| Strategies.DenseTopRanked | src/ontology_llm/tools/sql_tools.py:428-429 | Sorted by score descending then id; each a positively scored stored instance; for a non-negative limit exactly `min(limit, scored)` rows; every row left out ranks after every row kept. |
| Strategies.DenseSentinelIff | src/ontology_llm/tools/sql_tools.py:428-431 | For a limit of at least 1, the text of the top rows is the sentinel iff no stored instance scores above 0; a limit of 0 always gives the sentinel. |
| Strategies.DenseLabelOutranksProps | src/ontology_llm/tools/sql_tools.py:409-414 | A label hit (+5) outranks the same hit in properties (+2). |
| Strategies.DenseLabelAtLeast | src/ontology_llm/tools/sql_tools.py:409-414 | When one row's label hits match another's property hits token for token, the first scores at least as high. |
| Strategies.MissingMarkerExamples | src/ontology_llm/tools/sql_tools.py:445 | NULL, `UNKNOWN`, `N/A`, `ToDo` and `?` count as missing, and "0" does not. |
| Strategies.TargetsOf | src/ontology_llm/tools/sql_tools.py:440-453 | An instance's targets are exactly its properties whose value counts as missing. |
| Strategies.EnrichmentTargetsSound | src/ontology_llm/tools/sql_tools.py:439-453 | At most `limit` targets, each a stored property of a stored instance with a missing value. |
| Strategies.EnrichmentTargetsComplete | src/ontology_llm/tools/sql_tools.py:439-453 | The targets are a prefix of the full join; under the limit, every stored property of a stored instance with a missing value is a target. |
| Dispatch.SeedIdsFromTopFive | src/ontology_llm/tools/sql_tools.py:465 | At most 5 seeds. The seeds are exactly the non-empty ids among the first five candidates: each seed is one, and each one is a seed. |
| Dispatch.NonEmptyIds | src/ontology_llm/tools/sql_tools.py:465 | No more ids than candidates. Every id is non-empty and belongs to a candidate, and every candidate with a non-empty id contributes it. |
| Dispatch.NonEmptyIdsOrder | src/ontology_llm/tools/sql_tools.py:465 | The ids keep the candidates' order: the ids of `a + b` are those of `a` followed by those of `b`. |
| Dispatch.StrategyOfKnown | src/ontology_llm/tools/sql_tools.py:468-532 | An id has its own strategy iff it is one of the eight. |
| Dispatch.LookupByMethod | src/ontology_llm/tools/sql_tools.py:456-532 | Equals the dispatch specification for every id. |
| Dispatch.LookupOntologyContextByMethod | src/ontology_llm/tools/sql_tools.py:456-532 | The dispatcher with the `default-lexical` fallback. |
| Dispatch.FallbackOnlyForUnknown | src/ontology_llm/tools/sql_tools.py:531-532 | The label used for unknown ids never changes what a known method returns. |
| Dispatch.DebugAndIdKept | src/ontology_llm/tools/sql_tools.py:464-466 | Every method returns the base debug record and traces its own id. |
| Dispatch.BaseMethodsKeepContext | src/ontology_llm/tools/sql_tools.py:468-532 | method1 and unknown ids return the plain context, with their retrieval type and no count. |
| Dispatch.GatedContextIffEvidence | src/ontology_llm/tools/sql_tools.py:472-529 | For methods 2, 3, 4, 7 and 8 the context changes iff evidence was found, and the count records how much. |
| Dispatch.EvidenceWithinLimits | src/ontology_llm/tools/sql_tools.py:473-520 | Each evidence count is within its method's limit. |
| Dispatch.ConstraintCount | src/ontology_llm/tools/sql_tools.py:472-503 | method2 and method6 get at most `max(3, limit // 2)` constraint lines. |
| Dispatch.RelationCount | src/ontology_llm/tools/sql_tools.py:480-512 | Relation evidence never exceeds its limit. |
| Dispatch.EnrichmentCount | src/ontology_llm/tools/sql_tools.py:519-520 | method8 gets at most `max(3, limit)` targets. |
| Dispatch.DenseIgnoresBase | src/ontology_llm/tools/sql_tools.py:496-499 | method5 returns the dense text and debug record in place of the plain context. |
| Dispatch.EmptyStoreSentinel | src/ontology_llm/tools/sql_tools.py:456-532 | Over an empty store every method returns the sentinel. |
| MethodTools.NormalizeMethodId | src/ontology_llm/tools/method_tools.py:57-61 | Always one of the eight ids. |
| MethodTools.NormalizeSound | src/ontology_llm/tools/method_tools.py:57-61 | An id other than method1 comes back only when it was given, up to case and surrounding space. |
| MethodTools.NormalizeComplete | src/ontology_llm/tools/method_tools.py:57-61 | Any spelling of a known id, up to case and space, normalises to it. |
| MethodTools.NormalizeIdempotent | src/ontology_llm/tools/method_tools.py:57-61 | Normalising twice is normalising once. |
| MethodTools.NormalizeUnknown | src/ontology_llm/tools/method_tools.py:61 | `method9` falls back to `method1`. |
| MethodTools.NormalizeUpperCase | src/ontology_llm/tools/method_tools.py:59 | `METHOD3` normalises to `method3`. |
| MethodTools.MethodIdsCanonical | src/ontology_llm/tools/method_tools.py:3-12 | Every listed id is already trimmed, lower-case and non-empty. |
| MethodTools.PromptTableExact | src/ontology_llm/tools/method_tools.py:16-49 | The table covers exactly the eight ids, with eight distinct prompts. |
| MethodTools.GetMethodSystemPrompt | src/ontology_llm/tools/method_tools.py:64-65 | Always one of the table's prompts. |
| MethodTools.PromptFallback | src/ontology_llm/tools/method_tools.py:64-65 | An unknown id gets method1's prompt. |
| MethodTools.BuildSystemPrompt | src/ontology_llm/tools/method_tools.py:68-69 | The method prompt, a blank line, then the global guard; the method prompt can be read back. |
| MethodTools.BuildSystemPromptInjective | src/ontology_llm/tools/method_tools.py:68-69 | Different methods get different system prompts. |
| PromptTools.GetEnvInt | src/ontology_llm/tools/prompt_tools.py:15-23 | The default when the variable is unset or its stripped text is not an integer; otherwise `max(value, minimum)`, so never below `minimum`. |
| PromptTools.GetEnvIntOfFormatted | src/ontology_llm/tools/prompt_tools.py:20-23 | A variable holding `str(v)` reads back as `max(v, minimum)`. |
| PromptTools.GetEnvIntIgnoresLeadingSpace | src/ontology_llm/tools/prompt_tools.py:20 | Leading whitespace does not change the value read. |
| PromptTools.GetPromptBudgetMode | src/ontology_llm/tools/prompt_tools.py:26-28 | Always `strict` or `balanced`, and `strict` only when the variable says so. |
| PromptTools.BudgetModeCanonical | src/ontology_llm/tools/prompt_tools.py:27-28 | Each mode name reads back as itself. |
| PromptTools.BudgetModeRecognised | src/ontology_llm/tools/prompt_tools.py:27-28 | Any spelling of a mode, up to case and space, is recognised. |
| PromptTools.PropItemsOfJoin | src/ontology_llm/tools/prompt_tools.py:44-47 | Splitting the `"; "`-joined items gives the items back. |
| PromptTools.DedupeWithoutMarker | src/ontology_llm/tools/prompt_tools.py:37-39 | A line without `props=[` is unchanged. |
| PromptTools.DedupeAt | src/ontology_llm/tools/prompt_tools.py:35-47 | With a marker and a closing `]` after it, the property list is rewritten de-duplicated in place. |
| PromptTools.DedupeFactPropertiesIdempotent | src/ontology_llm/tools/prompt_tools.py:35-47 | De-duplicating a line twice is de-duplicating it once. |
| PromptTools.DedupeOfRendered | src/ontology_llm/tools/prompt_tools.py:35-47 | A line rendered from distinct items is left unchanged. |
| PromptTools.DedupeFactPropertiesClean | src/ontology_llm/tools/prompt_tools.py:35-47 | A trimmed single line stays a trimmed single line, and is either unchanged or keeps `props=[` where it was. |
| PromptTools.PropItems | src/ontology_llm/tools/prompt_tools.py:44-45 | The items kept are stripped and non-empty. |
| PromptTools.FactIdFromLine | src/ontology_llm/tools/prompt_tools.py:50-55 | An id comes back only from a `- ` line, and it is never empty. |
| PromptTools.FactIdOfFactLine | src/ontology_llm/tools/prompt_tools.py:50-55 | The id of a rendered fact line is the row's id. |
| PromptTools.RelationSourceFromLine | src/ontology_llm/tools/prompt_tools.py:58-65 | A source comes back only from a `- ` line with an arrow, and it is never empty. |
| PromptTools.RelationSourceOfRelationLine | src/ontology_llm/tools/prompt_tools.py:58-65 | The source of a rendered relation line is the relation's source. |
| PromptTools.EstimateTokenLen | src/ontology_llm/tools/prompt_tools.py:185-186 | At least 1 token and at most one per character. |
| PromptTools.TokenCountZeroIff | src/ontology_llm/tools/prompt_tools.py:185 | The pattern finds no token iff the text is all whitespace. |
| PromptTools.TokenCountSpaceJoin | src/ontology_llm/tools/prompt_tools.py:185 | Tokens of `a + " " + b` are the tokens of `a` plus those of `b`. |
| PromptTools.RegexTokenCount | src/ontology_llm/tools/prompt_tools.py:185 | No more tokens than characters. |
| PromptTools.EstimatePromptTokens | src/ontology_llm/tools/prompt_tools.py:189-212 | All three counts are at least 1. |
| PromptTools.ShortTextsNoWarning | src/ontology_llm/tools/prompt_tools.py:228-233 | Texts no longer than the threshold never warn. |
| PromptTools.ZeroThresholdWarns | src/ontology_llm/tools/prompt_tools.py:228-233 | A threshold below 1 always warns. |
| PromptTools.WarningMonotone | src/ontology_llm/tools/prompt_tools.py:228-233 | A warning at one threshold is a warning at every lower one. |
| Compression.SectionsAfterHeader | src/ontology_llm/tools/prompt_tools.py:80-91 | Lines before the first `relations:` are de-duplicated facts; the later non-header lines are relations. |
| Compression.SectionsWithoutHeader | src/ontology_llm/tools/prompt_tools.py:84-91 | Without a header, every line is a fact. |
| Compression.SplitContextLines | src/ontology_llm/tools/prompt_tools.py:81-91 | The section loop equals the section specification. |
| Compression.NonHeaders | src/ontology_llm/tools/prompt_tools.py:86-91 | Exactly the lines that are not `relations:` headers. |
| Compression.TermHitsAll | src/ontology_llm/tools/prompt_tools.py:105 | All terms present gives one point each. |
| Compression.TermHitsNone | src/ontology_llm/tools/prompt_tools.py:105 | No term present gives no point. |
| Compression.TermHits | src/ontology_llm/tools/prompt_tools.py:105 | At most one point per term. |
| Compression.PriceFactOutranks | src/ontology_llm/tools/prompt_tools.py:103-104 | For a price question, a `price_krw=` fact outranks any fact without one. |
| Compression.LinkedRelationOutranks | src/ontology_llm/tools/prompt_tools.py:120-124 | A relation from a selected fact gains 10 over one that is not, other things equal. |
| Compression.ScoreFactLines | src/ontology_llm/tools/prompt_tools.py:99-110 | The scoring loop equals the fact scores. |
| Compression.ScoreRelationLines | src/ontology_llm/tools/prompt_tools.py:117-125 | The scoring loop equals the relation scores. |
| Compression.ScoreFacts | src/ontology_llm/tools/prompt_tools.py:99-110 | One score per fact, tagged with its index. |
| Compression.ScoreRelations | src/ontology_llm/tools/prompt_tools.py:117-125 | One score per relation, tagged with its index. |
| Compression.RankLeTotalPreorder | src/ontology_llm/tools/prompt_tools.py:112-126 | Score descending, then index, is a total preorder. |
| Compression.RankingSorted | src/ontology_llm/tools/prompt_tools.py:112-126 | The ranking is a sorted permutation of the scored lines. |
| Compression.TopOfRanking | src/ontology_llm/tools/prompt_tools.py:112-113 | The top `n` lines are a prefix of the ranking and outrank everything left out. |
| Compression.SelectTopRanked | src/ontology_llm/tools/prompt_tools.py:112-131 | Between 1 and `max(1, max_facts)` facts, the best ranked; strict mode keeps at most 3 facts. |
| Compression.SelectRelationsTopRanked | src/ontology_llm/tools/prompt_tools.py:114-131 | The selected relations are the best ranked, after the bonus for linked sources: at most `max(0, max_relations)`, and 1 in strict mode. |
| Compression.StrictCutPrefix | src/ontology_llm/tools/prompt_tools.py:129-131 | Strict mode keeps a prefix of at most 3 facts and 1 relation, and never drops the last fact. |
| Compression.DropRelations | src/ontology_llm/tools/prompt_tools.py:142-144 | Pops relations from the end until none are left or the rendering fits. |
| Compression.DropFacts | src/ontology_llm/tools/prompt_tools.py:146-148 | Pops facts from the end, keeping at least one, until the rendering fits. |
| Compression.FitToBudget | src/ontology_llm/tools/prompt_tools.py:141-148 | The two `while` loops equal the budgeting specification. |
| Compression.BudgetedShape | src/ontology_llm/tools/prompt_tools.py:141-148 | Keeps prefixes and at least one fact; keeps everything when it fits; drops facts only after every relation; stops when the rendering fits or one fact and no relations remain. |
| Compression.TruncateWithin | src/ontology_llm/tools/prompt_tools.py:150-154 | Within the budget; unchanged iff it fits; otherwise a prefix of the text followed by `...` when the budget exceeds 3. |
| Compression.KeptTopRanked | src/ontology_llm/tools/prompt_tools.py:112-148 | The facts that survive budgeting are the best ranked, at least one. |
| Compression.CompressKeepsSentinel | src/ontology_llm/tools/prompt_tools.py:77-78 | An empty context or the sentinel is returned unchanged. |
| Compression.CompressWithinBudget | src/ontology_llm/tools/prompt_tools.py:68-154 | Every other context comes back within `max_context_chars`. |
| Compression.CompressOntologyContext | src/ontology_llm/tools/prompt_tools.py:68-154 | The compressor equals the compression specification. |
| Compression.DropRelationsFirstFit | src/ontology_llm/tools/prompt_tools.py:142-144 | The relation loop stops at the first fit: putting back the last relation it popped would exceed the budget. |
| Compression.DropFactsFirstFit | src/ontology_llm/tools/prompt_tools.py:146-148 | The fact loop stops at the first fit: putting back the last fact it popped would exceed the budget. |
| Compression.DropRelationsMonotone | src/ontology_llm/tools/prompt_tools.py:142-144 | A larger budget never keeps fewer relations. |
| Compression.DropFactsMonotone | src/ontology_llm/tools/prompt_tools.py:146-148 | A larger budget never keeps fewer facts. |
| Compression.BudgetedMonotone | src/ontology_llm/tools/prompt_tools.py:141-148 | The lines kept under a smaller budget are a prefix of those kept under a larger one, facts and relations alike. |
| Compression.KeptMonotone | src/ontology_llm/tools/prompt_tools.py:112-148 | For the same question and context, the lines kept under a smaller budget are a prefix of those kept under a larger one. |
| Compression.ReparseRendered | src/ontology_llm/tools/prompt_tools.py:80-91 | Rendering clean fact and relation lines and reading them back with the section loop gives the same facts and relations. |
| Compression.SelectLinesFrom | src/ontology_llm/tools/prompt_tools.py:112-131 | Every selected fact and relation line is one of the input lines. |
| Compression.SelectOfKept | src/ontology_llm/tools/prompt_tools.py:112-148 | Selecting again from the lines that survived budgeting keeps exactly those lines, in the same order. |
| Compression.CompressIdempotent | src/ontology_llm/tools/prompt_tools.py:68-154 | Compressing the output again with the same settings returns it unchanged, whenever the first pass did not need the final cut. |
| Compression.CompressCutNotIdempotent | src/ontology_llm/tools/prompt_tools.py:93-94 | With budget 5, a blank followed by the `relations:` header compresses to a blank and four letters, and compressing that gives the four letters alone. |
| App.AppNormalizeMethodId | src/ontology_llm/app.py:107-111 | Always one of the eight ids; an id other than method1 only when given. |
| App.AppNormalizeAgrees | src/ontology_llm/app.py:107-111 | app.py's normaliser equals method_tools.py's on every input. |
| App.EmitEvent | src/ontology_llm/app.py:33-57 | Nothing without a listener; otherwise the payload `App.EventPayload` builds. |
| App.EventPayloadKeys | src/ontology_llm/app.py:45-56 | The payload has exactly the four fixed keys, plus `meta` iff it is non-empty and `input`/`output` iff given. |
| App.EventPayloadValues | src/ontology_llm/app.py:45-56 | Each key holds its value: `event` is `stage`, the three strings as passed, and `meta`, `input` and `output` unchanged. |
| App.LookupLimit | src/ontology_llm/app.py:388-396 | `max(3 * max_facts, max_facts)`: never below `max_facts`, and `3 * max_facts` for a non-negative setting. |
| App.AppLookupByMethod | src/ontology_llm/app.py:267-342 | The app's dispatcher as intended: the sql_tools dispatch with no fallback retrieval type. |
| App.AppDispatchAgrees | src/ontology_llm/app.py:276-340 | On the eight known ids, app.py's dispatch equals sql_tools.py's. |
| App.AppUnknownIdTrace | src/ontology_llm/app.py:342 | An unknown id gets the plain context and a trace holding only the id. |
| App.LookupAsWrittenFails | src/ontology_llm/app.py:274-275 | As written, every call raises `NameError` on `lookup_ontology_context`. |
| App.DenseProxyAsWrittenFails | src/ontology_llm/app.py:194 | As written, every call raises `NameError` on `extract_query_terms`. |
| App.AppSystemPrompt | src/ontology_llm/app.py:440-443 | An id outside the table gets method1's prompt. |
| App.AppSystemPromptUnguarded | src/ontology_llm/app.py:440-443 | The app's prompt is method_tools.py's method prompt, and differs from `build_system_prompt` by the missing guard. |
| App.BuildUserPrompt | src/ontology_llm/app.py:445-451 | The appended parts, joined with blank lines, equal the user prompt specification. |
| App.UserPromptFrame | src/ontology_llm/app.py:445-451 | Opens with the method and ends with the question after a blank line. |
| App.UserPromptHint | src/ontology_llm/app.py:445-451 | Has the priority-fact part, second, exactly when the hint is non-empty; an empty hint gives the prompt of no hint. |
| App.ToolResult | src/ontology_llm/app.py:554-558 | Today's date exactly for `get_today_date`; otherwise an error naming the function. |
| App.ToolAsWrittenFails | src/ontology_llm/app.py:554-558 | As written, `get_today_date` raises `NameError` on `date`, and other names get the same error reply. |
| App.SettingsFrom | src/ontology_llm/app.py:361-364 | At least 1 fact, 0 relations and 1 character; a known budget mode; defaults 5 and 1200 when unset. |
| App.PrepareTurn | src/ontology_llm/app.py:345-451 | One turn up to the model call equals the turn specification. |
| App.TurnShape | src/ontology_llm/app.py:345-451 | A turn uses a known method, fits the context to the budget (unless nothing was found), gives a price hint only for a price question, and opens the prompt with the method. |
| Dashboard.UniqueKeepOrder | src/ontology_llm/dashboard_service.py:397-398 | No repeats, no empty strings, and exactly the non-empty items. |
| Dashboard.UniqueKeepOrderPrefix | src/ontology_llm/dashboard_service.py:397-398 | First-occurrence order: the result for a prefix is a prefix of the result. |
| Dashboard.UniqueKeepOrderIdempotent | src/ontology_llm/dashboard_service.py:397-398 | Applying it twice is applying it once. |
| Dashboard.PreviewShape | src/ontology_llm/dashboard_service.py:401-406 | "-" for no items; everything when they fit; otherwise the first items and ` 외 {n}개`, where `n` parses back as the number left out. |
| Dashboard.CollectKeys | src/ontology_llm/dashboard_service.py:448-457 | The key loop collects the stripped, non-empty keys in order. |
| Dashboard.ClassifyInstances | src/ontology_llm/dashboard_service.py:432-451 | The instance loop equals the classification specification. |
| Dashboard.LoadSnapshot | src/ontology_llm/dashboard_service.py:409-467 | A missing file gives the all-zero snapshot; otherwise the snapshot specification. |
| Dashboard.SnapshotClassifies | src/ontology_llm/dashboard_service.py:411-446 | Product labels are exactly the non-empty entries of product instances, and rule ids those of rule instances; no list repeats; candidates never outnumber instances. |
| Dashboard.CollectMembers | src/ontology_llm/dashboard_service.py:437-444 | An entry is collected iff some kept item has it. |
| Dashboard.CountWhereBounded | src/ontology_llm/dashboard_service.py:445-446 | The candidate count is at most the number of instances, and equal to it iff every instance is a candidate. |
| Dashboard.FocusPropertiesShape | src/ontology_llm/dashboard_service.py:640-643 | At most 8 keys, all present; no key is lost before the cut; no repeats when the keys are distinct. |
| Dashboard.FocusPropertiesOrder | src/ontology_llm/dashboard_service.py:640-643 | The preferred keys that are present lead, in preferred order; every other key comes after them. |
| Dashboard.Present | src/ontology_llm/dashboard_service.py:640 | The ordered keys are exactly the preferred keys that are present. |
| Dashboard.Absent | src/ontology_llm/dashboard_service.py:641 | The rest are exactly the present keys that are not preferred. |
| Dashboard.BuildReflection | src/ontology_llm/dashboard_service.py:628-655 | The four counts as given, and each list cut to its first 8. |
| Dashboard.BlueprintFor | src/ontology_llm/dashboard_service.py:470-625 | Every blueprint has exactly two lines per stage. |
| Dashboard.BlueprintFallback | src/ontology_llm/dashboard_service.py:625 | An unknown id gets method1's blueprint. |
| Dashboard.NodeIdInjective | src/ontology_llm/dashboard_service.py:718 | `n{i:02d}` ids are distinct, and the first is `n01`. |
| Dashboard.Pad2 | src/ontology_llm/dashboard_service.py:718 | `{i:02d}` is at least two digits. |
| Dashboard.Pad2Value | src/ontology_llm/dashboard_service.py:718 | Those digits read back as `i`. |
| Dashboard.PlaceStage | src/ontology_llm/dashboard_service.py:717-742 | One stage's inner loop extends the nodes, edges and lane counters as the DAG specification says. |
| Dashboard.BuildMethodDag | src/ontology_llm/dashboard_service.py:687-744 | The builder equals the DAG specification. |
| Dashboard.DagShape | src/ontology_llm/dashboard_service.py:692-742 | Four stages s1-s4 in runtime order; node ids n01, n02, ..., all distinct. |
| Dashboard.DagEdges | src/ontology_llm/dashboard_service.py:715-740 | One edge fewer than nodes, each from a node to the next, with order 1, 2, .... |
| Dashboard.DagLanes | src/ontology_llm/dashboard_service.py:713-727 | Each node's lane is the number of earlier nodes of its stage. |
| Dashboard.DagSize | src/ontology_llm/dashboard_service.py:470-744 | Every method's DAG has 8 nodes and 7 edges. |
| Dashboard.TestStatus | src/ontology_llm/dashboard_service.py:748-761 | `ready` iff the file has instances and classes, else `missing`. |
| Dashboard.AllTrue | src/ontology_llm/dashboard_service.py:360-361 | Python's `all()`: true iff every element is. |
| Dashboard.EnvFlags | src/ontology_llm/dashboard_service.py:350-357 | One flag per key, set iff the value is present and non-empty. |
| Dashboard.SetupReady | src/ontology_llm/dashboard_service.py:358-362 | Ready iff the ontology file exists, every dependency imports, and every environment key is set and non-empty. |

## Findings

| source | as written | input that shows it | evidently intended | confidence | as-written member | corrected member |
|---|---|---|---|---|---|---|
| src/ontology_llm/app.py:274-275 | `_lookup_by_method` calls `lookup_ontology_context` and `lookup_ontology_debug`, which app.py never imports. Every chat turn therefore raises `NameError`. | any question with any method, e.g. "우유 가격" with `method1` | call the sql_tools.py functions, as `lookup_ontology_context_by_method` does | high; not executed | App.AppLookupByMethodAsWritten, App.LookupAsWrittenFails | App.AppLookupByMethod |
| src/ontology_llm/app.py:194 | `_dense_proxy_context` calls `extract_query_terms`, which app.py never imports. | any question with `method5` or `method6`, once app.py:274-275 is fixed (until then every turn raises at line 274 first) | tokens from the sql_tools.py term extractor | high; not executed | App.AppDenseProxyAsWritten, App.DenseProxyAsWrittenFails | Strategies.DenseProxyContext |
| src/ontology_llm/app.py:556 | The `get_today_date` tool calls `date.today()`, but `date` is never imported. | a model reply that calls `get_today_date`, once app.py:274-275 is fixed (until then the turn raises at line 274 before the tool loop) | reply with today's date | high; not executed | App.ToolResultAsWritten, App.ToolAsWrittenFails | App.ToolResult |

## Left out

- src/ontology_llm/api.py, frontend/src/App.jsx, src/ontology_llm/tools/llm_tools.py and src/ontology_llm/exp/: HTTP routes, threads, UI, client construction and thin per-method wrappers. None of these belong to the engine. The five-line token score in exp/method5 is not modelled either.
- SQLite: the tables are sequences, and a query returns rows in table order. SQLite's unspecified `GROUP BY` row order and `group_concat` order are taken to be insertion order.
- LIKE: `%term%` is modelled as a substring test. A `%` or `_` inside a term, which LIKE treats as a wildcard, is not modelled.
- `get_db`, `init_schema`, `ingest_ontology_yaml`, YAML loading, `Path.exists`, `importlib` checks and `os.getenv`: file, database and environment access. Their results are parameters (`Payload`, an environment map, booleans).
- `load_budget_tokenizer` and the Hugging Face branch of `estimate_token_len`: an optional foreign library. Only the regex heuristic is modelled.
- `log_prompt_budget` is modelled only as its warning condition; the logging itself is left out. `get_memori_embedding_model` reads the environment only.
- `run_chat_trace` after the prompt is built, and `run_chat`/`main`: the LLM request and response loop, Memori and the CLI. The stage events are modelled payload by payload (`App.EmitEvent`), not their sequence through a turn.
- `build_ontology_utilization_view`, `build_method_examples`, `build_token_mitigation_status`, `build_dashboard_payload` and the `METHODS`/`METHOD_EXAMPLE_CATALOG` tables: constant tables and dictionary assembly. Only their ready predicates are modelled.
- Text.Lower: lowers ASCII letters only, as SQLite's `lower()` does. Python's `str.lower` on non-ASCII letters is not modelled. The ontology's Korean text has no case, so this matters only for other scripts.
- Text.ParseInt: models `int()` on ASCII digits with single underscores. Non-ASCII decimal digits, which Python also accepts, are not modelled.
- Text.Strip: its own contract gives only the length bound and the trimmed ends. That the result is the input with the surrounding whitespace removed is proved separately, as `Text.StripSlice`, so that every proof using `Strip` does not carry an existential.
- Strategies.EnrichmentTargetsSound: states the bound and soundness only. Completeness, and that the targets are a prefix of the full join, are `Strategies.EnrichmentTargetsComplete`.
- Text.SplitLines: splits on `\n`, `\r` and the other Python line boundaries, but treats `\r\n` as two breaks. The extra empty line is dropped by the strip-and-filter that follows.
- Compression.CompressIdempotent: proved only when the first pass did not need the final cut (`Compression.FitsWithoutCut`). When the cut applies, a second pass can change the text again: `Compression.CompressCutNotIdempotent` shows a blank followed by `relations:` at budget 5 giving " rela" and then "rela".
- Compression.TermHits: `set(extract_query_terms(question))` is modelled as the term list, which never has repeats. The count is therefore the same.
- Dashboard.LoadSnapshot: instance fields arrive already converted with `str()`. Missing YAML keys and `or []` defaults are folded into empty strings and empty lists.
