/**
  The method-specific evidence sources of src/ontology_llm/tools/sql_tools.py
  (constraint facts, relation evidence, two-hop paths, the dense proxy and the
  missing-value scan), over the in-memory store of module Ontology. The copies in
  src/ontology_llm/app.py are the same code and share these definitions.
 */
module Strategies {

  import opened Wrappers
  import opened Text
  import opened Seqs
  import opened Sorting
  import opened Ontology
  import opened SqlLookup

  // ================================================================ constraint_facts

  const ConstraintClasses: set<string> := {"constraint", "rule", "policy", "guardrail"}

  /** The property keys that mark a constraint: the class names and also `template`. */
  const ConstraintKeys: set<string> := {"constraint", "rule", "template", "policy", "guardrail"}

  predicate IsConstraintInstance(store: Store, inst: Instance) {
    Lower(inst.className) in ConstraintClasses
    || exists p | p in store.properties :: p.instanceId == inst.id && Lower(p.key) in ConstraintKeys
  }

  function ConstraintInstances(store: Store, insts: seq<Instance>): (r: seq<Instance>)
    ensures |r| <= |insts|
    ensures forall x :: x in r <==> x in insts && IsConstraintInstance(store, x)
  {
    if insts == [] then []
    else (if IsConstraintInstance(store, insts[0]) then [insts[0]] else []) + ConstraintInstances(store, insts[1..])
  }

  /** `- id label='label' props=[...]` */
  function ConstraintLine(store: Store, inst: Instance): string {
    "- " + inst.id + " label='" + LabelText(inst) + "' props=[" + PropsText(store, inst.id) + "]"
  }

  function ConstraintLines(store: Store, insts: seq<Instance>): (lines: seq<string>)
    ensures |lines| == |insts|
    ensures forall k :: 0 <= k < |insts| ==> lines[k] == ConstraintLine(store, insts[k])
  {
    seq(|insts|, k requires 0 <= k < |insts| => ConstraintLine(store, insts[k]))
  }

  /** `constraint_facts`: the constraint instances in store order, cut by `LIMIT`. */
  function ConstraintFacts(store: Store, limit: int): seq<string> {
    ConstraintLines(store, SqlLimit(ConstraintInstances(store, store.instances), limit))
  }

  /** Every line describes a constraint instance of the store, and there are at most
      `limit` of them. */
  predicate IsConstraintLine(store: Store, line: string) {
    exists inst :: inst in store.instances && IsConstraintInstance(store, inst) && line == ConstraintLine(store, inst)
  }

  lemma ConstraintFactsSound(store: Store, limit: int)
    ensures limit >= 0 ==> |ConstraintFacts(store, limit)| <= limit
    ensures forall line :: line in ConstraintFacts(store, limit) ==> IsConstraintLine(store, line)
  {
    var all := ConstraintInstances(store, store.instances);
    var kept := SqlLimit(all, limit);
    var lines := ConstraintFacts(store, limit);
    forall line | line in lines ensures IsConstraintLine(store, line) {
      var k :| 0 <= k < |lines| && lines[k] == line;
      assert kept[k] == all[k];
      assert kept[k] in all;
      assert lines[k] == ConstraintLine(store, kept[k]);
    }
  }

  /** With no limit (a negative one) or a large enough one, every constraint instance has
      its line. */
  lemma ConstraintFactsComplete(store: Store, limit: int)
    requires limit < 0 || |ConstraintInstances(store, store.instances)| <= limit
    ensures forall inst :: inst in store.instances && IsConstraintInstance(store, inst) ==>
      ConstraintLine(store, inst) in ConstraintFacts(store, limit)
  {
    var all := ConstraintInstances(store, store.instances);
    var lines := ConstraintFacts(store, limit);
    assert SqlLimit(all, limit) == all;
    forall inst | inst in store.instances && IsConstraintInstance(store, inst)
      ensures ConstraintLine(store, inst) in lines
    {
      var k :| 0 <= k < |all| && all[k] == inst;
      assert lines[k] == ConstraintLine(store, inst);
    }
  }

  /** An instance of any class counts as a constraint once it has a `template` property. */
  lemma TemplateKeyQualifies(store: Store, inst: Instance, p: Property)
    requires p in store.properties && p.instanceId == inst.id && p.key == "Template"
    ensures IsConstraintInstance(store, inst)
  {
    assert Lower(p.key) == "template";
  }

  // ================================================================ relation_evidence

  /** `ORDER BY source_id, type, target_id`: lexicographic on the three columns. */
  predicate RelLe(a: Relation, b: Relation) {
    if a.source != b.source then StrLe(a.source, b.source)
    else if a.kind != b.kind then StrLe(a.kind, b.kind)
    else StrLe(a.target, b.target)
  }

  lemma RelLeTotalOrder()
    ensures TotalPreorder(RelLe) && Antisymmetric(RelLe)
  {
    forall a: Relation, b: Relation ensures RelLe(a, b) || RelLe(b, a) {
      StrLeTotal(a.source, b.source);
      StrLeTotal(a.kind, b.kind);
      StrLeTotal(a.target, b.target);
    }
    forall a: Relation, b: Relation, c: Relation | RelLe(a, b) && RelLe(b, c) ensures RelLe(a, c) {
      RelLeTrans(a, b, c);
    }
    forall a: Relation, b: Relation | RelLe(a, b) && RelLe(b, a) ensures a == b {
      if a.source != b.source {
        StrLeAntisym(a.source, b.source);
      } else if a.kind != b.kind {
        StrLeAntisym(a.kind, b.kind);
      } else {
        StrLeAntisym(a.target, b.target);
      }
    }
  }

  lemma RelLeTrans(a: Relation, b: Relation, c: Relation)
    requires RelLe(a, b) && RelLe(b, c)
    ensures RelLe(a, c)
  {
    if a.source != b.source && b.source != c.source {
      StrLeTrans(a.source, b.source, c.source);
      if a.source == c.source {
        StrLeAntisym(a.source, b.source);
      }
    } else if a.source != b.source || b.source != c.source {
    } else if a.kind != b.kind && b.kind != c.kind {
      StrLeTrans(a.kind, b.kind, c.kind);
      if a.kind == c.kind {
        StrLeAntisym(a.kind, b.kind);
      }
    } else if a.kind != b.kind || b.kind != c.kind {
    } else {
      StrLeTrans(a.target, b.target, c.target);
    }
  }

  /** The edges `relation_evidence` reports: those touching a seed, ordered, cut by `LIMIT`. */
  function EvidenceRelations(store: Store, seeds: seq<string>, limit: int): seq<Relation> {
    if seeds == [] then []
    else SqlLimit(Sort(RelationsTouching(store.relations, SeqToSet(seeds)), RelLe), limit)
  }

  function RelationEvidence(store: Store, seeds: seq<string>, limit: int): seq<string> {
    RelationLines(EvidenceRelations(store, seeds, limit))
  }

  /** The evidence is ordered by (source, type, target), holds only stored edges that touch
      a seed, at most `limit` of them; no seeds give no evidence. With seeds and a limit
      that is not negative it is exactly `min(limit, #touching)` edges, and every touching
      edge left out comes no earlier than each one reported. */
  lemma EvidenceRelationsSound(store: Store, seeds: seq<string>, limit: int)
    ensures var ev := EvidenceRelations(store, seeds, limit);
      SortedBy(ev, RelLe)
      && (forall e :: e in ev ==> e in store.relations && (e.source in seeds || e.target in seeds))
      && (limit >= 0 ==> |ev| <= limit)
      && (seeds == [] ==> ev == [])
    ensures var ev := EvidenceRelations(store, seeds, limit);
      var touching := RelationsTouching(store.relations, SeqToSet(seeds));
      (seeds != [] && limit >= 0 ==> |ev| == Min(limit, |touching|))
      && (forall e, f :: e in ev && f in touching && f !in ev ==> RelLe(e, f))
  {
    if seeds != [] {
      var touching := RelationsTouching(store.relations, SeqToSet(seeds));
      RelLeTotalOrder();
      SortSorted(touching, RelLe);
      var sorted := Sort(touching, RelLe);
      var ev := EvidenceRelations(store, seeds, limit);
      forall e | e in ev ensures e in store.relations && (e.source in seeds || e.target in seeds) {
        var k :| 0 <= k < |ev| && ev[k] == e;
        assert sorted[k] == e;
        assert e in multiset(touching);
      }
      if limit >= 0 {
        TopOfSortedRest(touching, RelLe, limit);
        assert ev == PyPrefix(sorted, limit);
      } else {
        assert ev == sorted;
        forall f | f in touching ensures f in ev {
          assert f in multiset(sorted);
        }
      }
    }
  }

  /** Without a limit the evidence is every touching edge, in the one sorted order. */
  lemma EvidenceUnlimited(store: Store, seeds: seq<string>, limit: int)
    requires seeds != [] && limit < 0
    ensures var ev := EvidenceRelations(store, seeds, limit);
      multiset(ev) == multiset(RelationsTouching(store.relations, SeqToSet(seeds)))
  {
  }

  /** The evidence lines are the rendered evidence edges: at most `limit` of them, each the
      line of a stored edge that touches a seed, and none without seeds. With seeds and a
      limit that is not negative there are `min(limit, #touching)` lines, and when every
      touching edge fits under the limit each one's line is reported. */
  lemma RelationEvidenceSound(store: Store, seeds: seq<string>, limit: int)
    ensures var lines := RelationEvidence(store, seeds, limit);
      (limit >= 0 ==> |lines| <= limit)
      && (forall l :: l in lines ==>
            exists e :: e in store.relations && (e.source in seeds || e.target in seeds) && l == RelationLine(e))
      && (seeds == [] ==> lines == [])
    ensures var lines := RelationEvidence(store, seeds, limit);
      var touching := RelationsTouching(store.relations, SeqToSet(seeds));
      (seeds != [] && limit >= 0 ==> |lines| == Min(limit, |touching|))
      && (seeds != [] && (limit < 0 || |touching| <= limit) ==>
            forall e :: e in touching ==> RelationLine(e) in lines)
  {
    var ev := EvidenceRelations(store, seeds, limit);
    var lines := RelationEvidence(store, seeds, limit);
    var touching := RelationsTouching(store.relations, SeqToSet(seeds));
    EvidenceRelationsSound(store, seeds, limit);
    forall l | l in lines
      ensures exists e :: e in store.relations && (e.source in seeds || e.target in seeds) && l == RelationLine(e)
    {
      var k :| 0 <= k < |lines| && lines[k] == l;
      assert ev[k] in ev;
    }
    if seeds != [] && (limit < 0 || |touching| <= limit) {
      forall e | e in touching ensures RelationLine(e) in lines {
        EvidenceAllTouching(store, seeds, limit, e);
        var k :| 0 <= k < |ev| && ev[k] == e;
        assert lines[k] == RelationLine(e);
      }
    }
  }

  /** When every touching edge fits under the limit, none of them is cut. */
  lemma EvidenceAllTouching(store: Store, seeds: seq<string>, limit: int, e: Relation)
    requires seeds != []
    requires limit < 0 || |RelationsTouching(store.relations, SeqToSet(seeds))| <= limit
    requires e in RelationsTouching(store.relations, SeqToSet(seeds))
    ensures e in EvidenceRelations(store, seeds, limit)
  {
    var touching := RelationsTouching(store.relations, SeqToSet(seeds));
    var sorted := Sort(touching, RelLe);
    RelLeTotalOrder();
    SortSorted(touching, RelLe);
    assert |sorted| == |multiset(sorted)| == |multiset(touching)| == |touching|;
    assert EvidenceRelations(store, seeds, limit) == sorted;
    assert e in multiset(sorted);
  }

  // ================================================================ multihop_paths

  function TargetSet(rels: seq<Relation>): (r: set<string>)
    ensures forall t :: t in r <==> exists e :: e in rels && e.target == t
  {
    set e | e in rels :: e.target
  }

  /** The first hop: edges out of a seed, cut by `LIMIT per_hop_limit`. */
  function FirstHop(store: Store, seeds: seq<string>, perHop: int): seq<Relation> {
    SqlLimit(RelationsFrom(store.relations, SeqToSet(seeds)), perHop)
  }

  /** The second hop: edges out of any first-hop target, cut by the same limit. */
  function SecondHop(store: Store, first: seq<Relation>, perHop: int): seq<Relation> {
    SqlLimit(RelationsFrom(store.relations, TargetSet(first)), perHop)
  }

  /** `second_by_source.get(t, [])`: the second-hop edges leaving `t`, in order. */
  function Chained(second: seq<Relation>, t: string): (r: seq<Relation>)
    ensures forall e :: e in r <==> e in second && e.source == t
  {
    if second == [] then []
    else
      var last := second[|second| - 1];
      assert second == second[..|second| - 1] + [last];
      Chained(second[..|second| - 1], t) + (if last.source == t then [last] else [])
  }

  function ChainLine(e1: Relation, e2: Relation): string {
    RelationLine(e1) + " -[" + e2.kind + "]-> " + e2.target
  }

  function ChainLines(e1: Relation, chained: seq<Relation>): (lines: seq<string>)
    ensures |lines| == |chained|
    ensures forall k :: 0 <= k < |chained| ==> lines[k] == ChainLine(e1, chained[k])
  {
    seq(|chained|, k requires 0 <= k < |chained| => ChainLine(e1, chained[k]))
  }

  /** The lines one first-hop edge contributes. */
  function EdgePaths(e1: Relation, second: seq<Relation>): seq<string> {
    var chained := Chained(second, e1.target);
    if chained == [] then [RelationLine(e1)] else ChainLines(e1, chained)
  }

  function AllPaths(first: seq<Relation>, second: seq<Relation>): seq<string> {
    if first == [] then []
    else AllPaths(first[..|first| - 1], second) + EdgePaths(first[|first| - 1], second)
  }

  /** What `multihop_paths` returns. */
  function MultihopSpec(store: Store, seeds: seq<string>, perHop: int): seq<string> {
    if seeds == [] then []
    else
      var first := FirstHop(store, seeds, perHop);
      if first == [] then [] else PyPrefix(AllPaths(first, SecondHop(store, first, perHop)), perHop * 2)
  }

  /** The `second_by_source` loop: each source's second-hop edges, in order. */
  method GroupBySource(second: seq<Relation>) returns (bySource: map<string, seq<Relation>>)
    ensures forall s :: s in bySource ==> bySource[s] == Chained(second, s)
    ensures forall s :: s !in bySource ==> Chained(second, s) == []
  {
    bySource := map[];
    var i := 0;
    while i < |second|
      invariant 0 <= i <= |second|
      invariant forall s :: s in bySource ==> bySource[s] == Chained(second[..i], s)
      invariant forall s :: s !in bySource ==> Chained(second[..i], s) == []
    {
      var e := second[i];
      var prev := if e.source in bySource then bySource[e.source] else [];
      var next := bySource[e.source := prev + [e]];
      forall s ensures s in next ==> next[s] == Chained(second[..i + 1], s)
        ensures s !in next ==> Chained(second[..i + 1], s) == []
      {
        ChainedSnoc(second, i, s);
      }
      bySource := next;
      i := i + 1;
    }
    assert second[..i] == second;
  }

  lemma ChainedSnoc(second: seq<Relation>, i: nat, s: string)
    requires i < |second|
    ensures Chained(second[..i + 1], s) == Chained(second[..i], s) + (if second[i].source == s then [second[i]] else [])
  {
    assert second[..i + 1][..i] == second[..i];
  }

  /** The lines of one first-hop edge, given its chained edges. */
  method EdgeLines(e1: Relation, chained: seq<Relation>) returns (lines: seq<string>)
    ensures lines == (if chained == [] then [RelationLine(e1)] else ChainLines(e1, chained))
  {
    if chained == [] {
      return [RelationLine(e1)];
    }
    lines := [];
    var k := 0;
    while k < |chained|
      invariant 0 <= k <= |chained|
      invariant lines == ChainLines(e1, chained[..k])
    {
      lines := lines + [ChainLine(e1, chained[k])];
      k := k + 1;
    }
    assert chained[..k] == chained;
  }

  /** `multihop_paths`. */
  method MultihopPaths(store: Store, seeds: seq<string>, perHop: int) returns (paths: seq<string>)
    ensures paths == MultihopSpec(store, seeds, perHop)
  {
    if seeds == [] {
      return [];
    }
    var first := FirstHop(store, seeds, perHop);
    if first == [] {
      return [];
    }
    var second := SecondHop(store, first, perHop);
    var bySource := GroupBySource(second);
    var all: seq<string> := [];
    var j := 0;
    while j < |first|
      invariant 0 <= j <= |first|
      invariant all == AllPaths(first[..j], second)
    {
      var e1 := first[j];
      assert first[..j + 1][..j] == first[..j];
      var chained := if e1.target in bySource then bySource[e1.target] else [];
      var lines := EdgeLines(e1, chained);
      all := all + lines;
      j := j + 1;
    }
    assert first[..j] == first;
    paths := PyPrefix(all, perHop * 2);
  }

  /** `line` is `e1` followed by one of its second-hop continuations. */
  predicate IsChainOf(e1: Relation, second: seq<Relation>, line: string) {
    exists e2 :: e2 in second && e2.source == e1.target && line == ChainLine(e1, e2)
  }

  /** A first-hop edge with no continuation gives exactly its own line; one with
      continuations gives one chained line per second-hop edge and never its bare line. */
  lemma EdgePathsShape(e1: Relation, second: seq<Relation>)
    ensures Chained(second, e1.target) == [] ==> EdgePaths(e1, second) == [RelationLine(e1)]
    ensures Chained(second, e1.target) != [] ==>
      RelationLine(e1) !in EdgePaths(e1, second)
      && |EdgePaths(e1, second)| == |Chained(second, e1.target)|
      && forall line :: line in EdgePaths(e1, second) ==> IsChainOf(e1, second, line)
  {
    var chained := Chained(second, e1.target);
    var lines := EdgePaths(e1, second);
    if chained != [] {
      assert lines == ChainLines(e1, chained);
      forall line | line in lines ensures line != RelationLine(e1) && IsChainOf(e1, second, line) {
        var k :| 0 <= k < |lines| && lines[k] == line;
        var e2 := chained[k];
        assert e2 in chained;
        assert e2 in second && e2.source == e1.target;
        assert line == ChainLine(e1, e2);
        assert |line| > |RelationLine(e1)|;
      }
    }
  }

  /** At most twice `per_hop_limit` lines; none without seeds or without a first hop. */
  lemma MultihopCap(store: Store, seeds: seq<string>, perHop: int)
    ensures perHop >= 0 ==> |MultihopSpec(store, seeds, perHop)| <= 2 * perHop
    ensures seeds == [] || FirstHop(store, seeds, perHop) == [] ==> MultihopSpec(store, seeds, perHop) == []
  {
  }

  lemma ChainExampleHops(ab: Relation, bc: Relation)
    requires ab.source != ab.target && bc.source == ab.target
    ensures FirstHop(Store([], [], [ab, bc]), [ab.source], 6) == [ab]
    ensures SecondHop(Store([], [], [ab, bc]), [ab], 6) == [bc]
  {
    assert SeqToSet([ab.source]) == {ab.source};
    assert RelationsFrom([bc], {ab.source}) == [];
    assert RelationsFrom([ab, bc], {ab.source}) == [ab];
    assert TargetSet([ab]) == {ab.target};
    assert RelationsFrom([bc], {ab.target}) == [bc];
    assert RelationsFrom([ab, bc], {ab.target}) == [bc];
  }

  /** Seeds `[A]` with edges `A -[k1]-> B` and `B -[k2]-> C`, for any `A` other than `B`,
      give the one chained path `- A -[k1]-> B -[k2]-> C`. */
  lemma MultihopChainExample(a: string, b: string, c: string, k1: string, k2: string)
    requires a != b
    ensures MultihopSpec(Store([], [], [Relation(a, k1, b), Relation(b, k2, c)]), [a], 6)
      == ["- " + a + " -[" + k1 + "]-> " + b + " -[" + k2 + "]-> " + c]
  {
    var ab := Relation(a, k1, b);
    var bc := Relation(b, k2, c);
    var store := Store([], [], [ab, bc]);
    ChainExampleHops(ab, bc);
    ChainExamplePaths(ab, bc);
    var paths := AllPaths([ab], [bc]);
    assert MultihopSpec(store, [a], 6) == PyPrefix(paths, 12);
    assert ChainLine(ab, bc) == "- " + a + " -[" + k1 + "]-> " + b + " -[" + k2 + "]-> " + c;
  }

  /** A single edge leaving `t` is its own continuation list. */
  lemma ChainedSingle(e: Relation, t: string)
    requires e.source == t
    ensures Chained([e], t) == [e]
  {
    assert [e][..0] == [];
  }

  /** One first-hop edge gives exactly its own paths. */
  lemma AllPathsSingle(e: Relation, second: seq<Relation>)
    ensures AllPaths([e], second) == EdgePaths(e, second)
  {
    assert [e][..0] == [];
  }

  lemma ChainExamplePaths(ab: Relation, bc: Relation)
    requires bc.source == ab.target
    ensures AllPaths([ab], [bc]) == [ChainLine(ab, bc)]
  {
    AllPathsSingle(ab, [bc]);
    EdgePathsOfSingle(ab, bc);
    ChainLinesSingle(ab, bc);
  }

  /** An edge with a single continuation renders its chained lines. */
  lemma EdgePathsOfSingle(ab: Relation, bc: Relation)
    requires bc.source == ab.target
    ensures EdgePaths(ab, [bc]) == ChainLines(ab, [bc])
  {
    ChainedSingle(bc, ab.target);
  }

  lemma ChainLinesSingle(e1: Relation, e2: Relation)
    ensures ChainLines(e1, [e2]) == [ChainLine(e1, e2)]
  {
    var lines := ChainLines(e1, [e2]);
    assert |lines| == 1 && lines[0] == ChainLine(e1, e2);
  }


  /** Seeds `[A]` with only `A -[made_by]-> B` give the one unchained line. */
  lemma MultihopSingleHopExample()
    ensures MultihopSpec(Store([], [], [Relation("A", "made_by", "B")]), ["A"], 6) == ["- A -[made_by]-> B"]
  {
    var ab := Relation("A", "made_by", "B");
    var store := Store([], [], [ab]);
    assert SeqToSet(["A"]) == {"A"};
    var first := FirstHop(store, ["A"], 6);
    assert first == [ab];
    assert TargetSet(first) == {"B"};
    var second := SecondHop(store, first, 6);
    assert RelationsFrom([ab], {"B"}) == [];
    assert second == [];
    assert AllPaths(first, second) == EdgePaths(ab, second) by {
      assert first[..0] == [];
    }
    assert EdgePaths(ab, second) == [RelationLine(ab)];
    assert RelationLine(ab) == "- A -[made_by]-> B";
    assert MultihopSpec(store, ["A"], 6) == PyPrefix([RelationLine(ab)], 12);
  }

  // ================================================================ dense_proxy_context

  /** The query terms of two or more characters. */
  function DenseTokens(question: string): (tokens: seq<string>)
    ensures forall k :: 0 <= k < |tokens| ==> |tokens[k]| >= 2
    ensures forall t :: t in tokens <==> t in ExtractQueryTerms(question) && |t| >= 2
  {
    LongTerms(ExtractQueryTerms(question))
  }

  function LongTerms(ts: seq<string>): (r: seq<string>)
    ensures forall k :: 0 <= k < |r| ==> |r[k]| >= 2
    ensures forall t :: t in r <==> t in ts && |t| >= 2
  {
    if ts == [] then [] else (if |ts[0]| >= 2 then [ts[0]] else []) + LongTerms(ts[1..])
  }

  /** What one token adds: +3 id, +1 class, +5 label, +2 properties. */
  function DenseWeight(row: FactRow, t: string): int {
    (if InId(row, t) then 3 else 0) + (if InClass(row, t) then 1 else 0)
    + (if InLabel(row, t) then 5 else 0) + (if InProps(row, t) then 2 else 0)
  }

  predicate DenseHit(row: FactRow, t: string) {
    InId(row, t) || InClass(row, t) || InLabel(row, t) || InProps(row, t)
  }

  function DenseScore(row: FactRow, tokens: seq<string>): int {
    if tokens == [] then 0
    else DenseScore(row, tokens[..|tokens| - 1]) + DenseWeight(row, tokens[|tokens| - 1])
  }

  function DenseMatched(row: FactRow, tokens: seq<string>): seq<string> {
    if tokens == [] then []
    else
      DenseMatched(row, tokens[..|tokens| - 1])
      + (if DenseHit(row, tokens[|tokens| - 1]) then [tokens[|tokens| - 1]] else [])
  }

  datatype DenseCandidate = DenseCandidate(
    id: string, className: string, labelText: string, props: string, score: int, matchedTerms: seq<string>)

  datatype DenseDebug = DenseDebug(tokens: seq<string>, scoredCandidates: seq<DenseCandidate>)

  /** `sorted(set(matched))`; the tokens are distinct, so the set drops nothing. */
  function DenseCandidateOf(row: FactRow, tokens: seq<string>): DenseCandidate {
    DenseCandidate(row.id, row.className, row.labelText, row.props,
                   DenseScore(row, tokens), Sort(DenseMatched(row, tokens), StrLe))
  }

  /** The rows with a positive score, in row order. */
  function DenseScored(rows: seq<FactRow>, tokens: seq<string>): (cs: seq<DenseCandidate>)
    ensures forall c :: c in cs ==> c.score > 0
    ensures forall c :: c in cs ==> exists row :: row in rows && c == DenseCandidateOf(row, tokens)
    ensures forall row :: row in rows && DenseScore(row, tokens) > 0 ==> DenseCandidateOf(row, tokens) in cs
  {
    if rows == [] then []
    else
      var init := rows[..|rows| - 1];
      var last := rows[|rows| - 1];
      assert rows == init + [last];
      var c := DenseCandidateOf(last, tokens);
      DenseScored(init, tokens) + (if c.score > 0 then [c] else [])
  }

  predicate DenseLe(a: DenseCandidate, b: DenseCandidate) {
    a.score > b.score || (a.score == b.score && StrLe(a.id, b.id))
  }

  lemma DenseLeTotal()
    ensures TotalPreorder(DenseLe)
  {
    forall a: DenseCandidate, b: DenseCandidate ensures DenseLe(a, b) || DenseLe(b, a) {
      StrLeTotal(a.id, b.id);
    }
    forall a: DenseCandidate, b: DenseCandidate, c: DenseCandidate | DenseLe(a, b) && DenseLe(b, c)
      ensures DenseLe(a, c)
    {
      if a.score == b.score == c.score {
        StrLeTrans(a.id, b.id, c.id);
      }
    }
  }

  /** Every instance of the store, grouped with its properties (no WHERE clause). */
  function AllRows(store: Store): seq<FactRow> {
    RowsOf(store, store.instances)
  }

  /** `top`: the best `limit` positive-scoring rows of the whole store. */
  function DenseTop(store: Store, question: string, limit: int): seq<DenseCandidate> {
    PyPrefix(Sort(DenseScored(AllRows(store), DenseTokens(question)), DenseLe), limit)
  }

  /** `- id (class) label='label' score=N props=[...]` */
  function DenseLine(c: DenseCandidate): string {
    "- " + c.id + " (" + c.className + ") label='" + c.labelText + "' score=" + IntToString(c.score)
    + " props=[" + c.props + "]"
  }

  function DenseLines(top: seq<DenseCandidate>): (lines: seq<string>)
    ensures |lines| == |top|
    ensures forall k :: 0 <= k < |top| ==> lines[k] == DenseLine(top[k])
  {
    seq(|top|, k requires 0 <= k < |top| => DenseLine(top[k]))
  }

  function DenseText(top: seq<DenseCandidate>): string {
    if top == [] then NoFactsSentinel else Join(DenseLines(top), "\n")
  }

  /** Scores one row against every token (the body of the row loop). */
  method ScoreDenseRow(row: FactRow, tokens: seq<string>) returns (c: DenseCandidate)
    ensures c == DenseCandidateOf(row, tokens)
  {
    var score := 0;
    var matched: seq<string> := [];
    var j := 0;
    while j < |tokens|
      invariant 0 <= j <= |tokens|
      invariant score == DenseScore(row, tokens[..j])
      invariant matched == DenseMatched(row, tokens[..j])
    {
      var t := tokens[j];
      assert tokens[..j + 1][..j] == tokens[..j];
      var hit := false;
      if InId(row, t) { score := score + 3; hit := true; }
      if InClass(row, t) { score := score + 1; hit := true; }
      if InLabel(row, t) { score := score + 5; hit := true; }
      if InProps(row, t) { score := score + 2; hit := true; }
      if hit {
        matched := matched + [t];
      }
      j := j + 1;
    }
    assert tokens[..j] == tokens;
    c := DenseCandidate(row.id, row.className, row.labelText, row.props, score, Sort(matched, StrLe));
  }

  /** The row loop of `dense_proxy_context`: the positive-scoring rows, in row order. */
  method ScoreDenseRows(rows: seq<FactRow>, tokens: seq<string>) returns (scored: seq<DenseCandidate>)
    ensures scored == DenseScored(rows, tokens)
  {
    scored := [];
    var i := 0;
    while i < |rows|
      invariant 0 <= i <= |rows|
      invariant scored == DenseScored(rows[..i], tokens)
    {
      var c := ScoreDenseRow(rows[i], tokens);
      assert rows[..i + 1][..i] == rows[..i];
      if c.score > 0 {
        scored := scored + [c];
      }
      i := i + 1;
    }
    assert rows[..i] == rows;
  }

  /** `dense_proxy_context`: the context text and the debug payload. */
  method DenseProxyContext(store: Store, question: string, limit: int) returns (context: string, debug: DenseDebug)
    ensures debug == DenseDebug(DenseTokens(question), DenseTop(store, question, limit))
    ensures context == DenseText(DenseTop(store, question, limit))
  {
    var tokens := DenseTokens(question);
    var scored := ScoreDenseRows(AllRows(store), tokens);
    var top := PyPrefix(Sort(scored, DenseLe), limit);
    if top == [] {
      return NoFactsSentinel, DenseDebug(tokens, []);
    }
    context := Join(DenseLines(top), "\n");
    debug := DenseDebug(tokens, top);
  }

  /** Each scored candidate is a positive-scoring instance of the store. */
  lemma DenseScoredFromStore(store: Store, tokens: seq<string>)
    ensures forall c :: c in DenseScored(AllRows(store), tokens) ==> (c.score > 0
      && exists inst :: inst in store.instances && c == DenseCandidateOf(RowOf(store, inst), tokens))
  {
    var rows := AllRows(store);
    forall c | c in DenseScored(rows, tokens)
      ensures exists inst :: inst in store.instances && c == DenseCandidateOf(RowOf(store, inst), tokens)
    {
      var row :| row in rows && c == DenseCandidateOf(row, tokens);
      var i :| 0 <= i < |rows| && rows[i] == row;
      assert store.instances[i] in store.instances;
    }
  }

  /** The first `n` of a sorted list are sorted, drawn from the list, and no more than `n`. */
  lemma TopOfSorted<T(!new)>(s: seq<T>, le: (T, T) -> bool, n: int)
    requires TotalPreorder(le)
    ensures SortedBy(PyPrefix(Sort(s, le), n), le)
    ensures forall x :: x in PyPrefix(Sort(s, le), n) ==> x in s
    ensures n >= 0 ==> |PyPrefix(Sort(s, le), n)| <= n
  {
    var sorted := Sort(s, le);
    SortSorted(s, le);
    var top := PyPrefix(sorted, n);
    forall x | x in top ensures x in s {
      var k :| 0 <= k < |top| && top[k] == x;
      assert sorted[k] == x;
      assert x in multiset(sorted);
    }
  }

  /** The first `n` of a sorted list are exactly `min(n, |s|)` items, and every item of the
      list left out comes no earlier than each one kept. */
  lemma TopOfSortedRest<T(!new)>(s: seq<T>, le: (T, T) -> bool, n: int)
    requires TotalPreorder(le)
    ensures n >= 0 ==> |PyPrefix(Sort(s, le), n)| == Min(n, |s|)
    ensures forall x, y :: x in PyPrefix(Sort(s, le), n) && y in s && y !in PyPrefix(Sort(s, le), n) ==> le(x, y)
  {
    var sorted := Sort(s, le);
    SortSorted(s, le);
    assert |sorted| == |multiset(sorted)| == |multiset(s)| == |s|;
    var top := PyPrefix(sorted, n);
    forall x, y | x in top && y in s && y !in top ensures le(x, y) {
      var i :| 0 <= i < |top| && top[i] == x;
      assert y in multiset(sorted);
      var k :| 0 <= k < |sorted| && sorted[k] == y;
      assert forall j :: 0 <= j < |top| ==> top[j] == sorted[j];
      assert sorted[i] == x;
    }
  }

  /** The dense candidates are the best-ranked positive scorers: ordered by score, then id;
      each is a scored instance of the store; exactly `min(limit, #scorers)` of them when
      `limit` is not negative; and every scorer left out ranks no earlier than each one kept. */
  lemma DenseTopRanked(store: Store, question: string, limit: int)
    ensures var top := DenseTop(store, question, limit);
      var scored := DenseScored(AllRows(store), DenseTokens(question));
      SortedBy(top, DenseLe)
      && (forall c :: c in top ==> (c.score > 0
            && exists inst :: inst in store.instances && c == DenseCandidateOf(RowOf(store, inst), DenseTokens(question))))
      && (limit >= 0 ==> |top| == Min(limit, |scored|))
      && (forall c, d :: c in top && d in scored && d !in top ==> DenseLe(c, d))
  {
    var tokens := DenseTokens(question);
    var scored := DenseScored(AllRows(store), tokens);
    DenseLeTotal();
    TopOfSorted(scored, DenseLe, limit);
    TopOfSortedRest(scored, DenseLe, limit);
    DenseScoredFromStore(store, tokens);
  }

  /** The rendered text is the sentinel exactly when there is no candidate line. */
  lemma DenseTextSentinelIff(top: seq<DenseCandidate>)
    ensures DenseText(top) == NoFactsSentinel <==> top == []
  {
    if top != [] {
      JoinStartsWith(DenseLines(top), "\n");
      assert DenseText(top)[0] == '-';
      assert NoFactsSentinel[0] == 'N';
    }
  }

  /** Some instance scores exactly when the scored list is not empty. */
  lemma DenseScoredEmptyIff(store: Store, tokens: seq<string>)
    ensures DenseScored(AllRows(store), tokens) == []
      <==> forall inst :: inst in store.instances ==> DenseScore(RowOf(store, inst), tokens) <= 0
  {
    var rows := AllRows(store);
    DenseScoredFromStore(store, tokens);
    forall inst | inst in store.instances && DenseScore(RowOf(store, inst), tokens) > 0
      ensures DenseCandidateOf(RowOf(store, inst), tokens) in DenseScored(rows, tokens)
    {
      var k :| 0 <= k < |store.instances| && store.instances[k] == inst;
      assert rows[k] == RowOf(store, inst);
    }
    if DenseScored(rows, tokens) != [] {
      var c := DenseScored(rows, tokens)[0];
      assert c in DenseScored(rows, tokens);
    }
  }

  /** With a positive limit, the sentinel comes back exactly when no stored instance scores;
      with a limit of 0, `scored[:0]` is empty and the sentinel always comes back. */
  lemma DenseSentinelIff(store: Store, question: string, limit: int)
    ensures limit >= 1 ==> (DenseText(DenseTop(store, question, limit)) == NoFactsSentinel
      <==> forall inst :: inst in store.instances ==> DenseScore(RowOf(store, inst), DenseTokens(question)) <= 0)
    ensures limit == 0 ==> DenseText(DenseTop(store, question, limit)) == NoFactsSentinel
  {
    var tokens := DenseTokens(question);
    var scored := DenseScored(AllRows(store), tokens);
    DenseLeTotal();
    TopOfSortedRest(scored, DenseLe, limit);
    DenseTextSentinelIff(DenseTop(store, question, limit));
    DenseScoredEmptyIff(store, tokens);
  }

  /** Label hits weigh more than property hits: when the same tokens hit one row only in
      its label and another only in its properties, the first scores strictly higher. */
  lemma {:induction false} DenseLabelOutranksProps(r1: FactRow, r2: FactRow, tokens: seq<string>)
    requires forall t :: t in tokens ==>
      !InId(r1, t) && !InClass(r1, t) && !InProps(r1, t) && !InId(r2, t) && !InClass(r2, t) && !InLabel(r2, t)
    requires forall t :: t in tokens ==> (InLabel(r1, t) <==> InProps(r2, t))
    requires exists t :: t in tokens && InLabel(r1, t)
    ensures DenseScore(r1, tokens) > DenseScore(r2, tokens)
  {
    var init := tokens[..|tokens| - 1];
    var last := tokens[|tokens| - 1];
    assert tokens == init + [last];
    DenseLabelAtLeast(r1, r2, init);
    if !InLabel(r1, last) {
      var t :| t in tokens && InLabel(r1, t);
      assert t in init;
      DenseLabelOutranksProps(r1, r2, init);
    }
  }

  lemma {:induction false} DenseLabelAtLeast(r1: FactRow, r2: FactRow, tokens: seq<string>)
    requires forall t :: t in tokens ==>
      !InId(r1, t) && !InClass(r1, t) && !InProps(r1, t) && !InId(r2, t) && !InClass(r2, t) && !InLabel(r2, t)
    requires forall t :: t in tokens ==> (InLabel(r1, t) <==> InProps(r2, t))
    ensures DenseScore(r1, tokens) >= DenseScore(r2, tokens) >= 0
  {
    if tokens != [] {
      var init := tokens[..|tokens| - 1];
      assert tokens == init + [tokens[|tokens| - 1]];
      DenseLabelAtLeast(r1, r2, init);
    }
  }

  // ================================================================ enrichment_targets

  /** The values that mark a property as missing, compared after lower-casing. */
  const MissingMarkers: set<string> := {"", "unknown", "todo", "n/a", "?"}

  /** `lower(COALESCE(value, '')) IN (...)`: a NULL value counts as the empty string. */
  predicate IsMissingValue(v: Option<string>) {
    Lower(v.GetOr("")) in MissingMarkers
  }

  datatype EnrichmentTarget = EnrichmentTarget(id: string, labelText: string, missingKey: string, value: string)

  function TargetsOf(inst: Instance, props: seq<Property>): (r: seq<EnrichmentTarget>)
    ensures forall t :: t in r <==>
      (exists p :: p in props && p.instanceId == inst.id && IsMissingValue(p.value)
         && t == EnrichmentTarget(inst.id, LabelText(inst), p.key, p.value.GetOr("")))
  {
    if props == [] then []
    else
      var p := props[0];
      (if p.instanceId == inst.id && IsMissingValue(p.value)
       then [EnrichmentTarget(inst.id, LabelText(inst), p.key, p.value.GetOr(""))] else [])
      + TargetsOf(inst, props[1..])
  }

  /** The rows of the join, instance by instance, each instance's properties in store order. */
  function EnrichmentRows(store: Store, insts: seq<Instance>): seq<EnrichmentTarget>
  {
    if insts == [] then []
    else TargetsOf(insts[0], store.properties) + EnrichmentRows(store, insts[1..])
  }

  lemma {:induction false} EnrichmentRowsFrom(store: Store, insts: seq<Instance>, t: EnrichmentTarget)
    requires t in EnrichmentRows(store, insts)
    ensures exists inst :: inst in insts && t in TargetsOf(inst, store.properties)
  {
    if t !in TargetsOf(insts[0], store.properties) {
      EnrichmentRowsFrom(store, insts[1..], t);
      var inst :| inst in insts[1..] && t in TargetsOf(inst, store.properties);
      assert inst in insts;
    }
  }

  /** Every missing-valued property of a listed instance is among the join's rows. */
  lemma {:induction false} EnrichmentRowsHas(store: Store, insts: seq<Instance>, inst: Instance, t: EnrichmentTarget)
    requires inst in insts && t in TargetsOf(inst, store.properties)
    ensures t in EnrichmentRows(store, insts)
  {
    if insts[0] != inst {
      EnrichmentRowsHas(store, insts[1..], inst, t);
    }
  }

  function EnrichmentTargets(store: Store, limit: int): seq<EnrichmentTarget> {
    SqlLimit(EnrichmentRows(store, store.instances), limit)
  }

  /** `- id label='label' missing_key=key value='value'` */
  function EnrichmentLine(t: EnrichmentTarget): string {
    "- " + t.id + " label='" + t.labelText + "' missing_key=" + t.missingKey + " value='" + t.value + "'"
  }

  function EnrichmentLines(ts: seq<EnrichmentTarget>): (lines: seq<string>)
    ensures |lines| == |ts|
    ensures forall k :: 0 <= k < |ts| ==> lines[k] == EnrichmentLine(ts[k])
  {
    seq(|ts|, k requires 0 <= k < |ts| => EnrichmentLine(ts[k]))
  }

  /** The markers match in any case, NULL counts as missing, and `0` is a real value. */
  lemma MissingMarkerExamples()
    ensures IsMissingValue(None) && IsMissingValue(Some("UNKNOWN")) && IsMissingValue(Some("N/A"))
    ensures IsMissingValue(Some("ToDo")) && IsMissingValue(Some("?"))
    ensures !IsMissingValue(Some("0"))
  {
    assert Lower("UNKNOWN") == "unknown";
    assert Lower("N/A") == "n/a";
    assert Lower("ToDo") == "todo";
    assert Lower("?") == "?";
    assert Lower("0") == "0";
  }

  /** Every target names a stored property of a stored instance whose value is a missing
      marker; at most `limit` when `limit` is not negative. */
  lemma EnrichmentTargetsSound(store: Store, limit: int)
    ensures var ts := EnrichmentTargets(store, limit);
      (limit >= 0 ==> |ts| <= limit)
      && forall t :: t in ts ==> exists inst, p ::
           inst in store.instances && p in store.properties && p.instanceId == inst.id
           && IsMissingValue(p.value) && t == EnrichmentTarget(inst.id, LabelText(inst), p.key, p.value.GetOr(""))
  {
    var all := EnrichmentRows(store, store.instances);
    var ts := EnrichmentTargets(store, limit);
    forall t | t in ts
      ensures exists inst, p ::
        inst in store.instances && p in store.properties && p.instanceId == inst.id
        && IsMissingValue(p.value) && t == EnrichmentTarget(inst.id, LabelText(inst), p.key, p.value.GetOr(""))
    {
      var k :| 0 <= k < |ts| && ts[k] == t;
      assert all[k] == t;
      EnrichmentRowsFrom(store, store.instances, t);
      var inst :| inst in store.instances && t in TargetsOf(inst, store.properties);
    }
  }

  /** The targets are the first rows of the join (`LIMIT` keeps a prefix), and when the
      limit is negative or reaches the number of rows, every stored property of a stored
      instance whose value is a missing marker is a target. */
  lemma EnrichmentTargetsComplete(store: Store, limit: int)
    ensures var all := EnrichmentRows(store, store.instances);
      var ts := EnrichmentTargets(store, limit);
      ts == all[..|ts|]
      && (limit < 0 || limit >= |all| ==>
            forall inst, p ::
              (inst in store.instances && p in store.properties && p.instanceId == inst.id && IsMissingValue(p.value))
              ==> EnrichmentTarget(inst.id, LabelText(inst), p.key, p.value.GetOr("")) in ts)
  {
    var all := EnrichmentRows(store, store.instances);
    if limit < 0 || limit >= |all| {
      assert EnrichmentTargets(store, limit) == all;
      forall inst, p | inst in store.instances && p in store.properties && p.instanceId == inst.id && IsMissingValue(p.value)
        ensures EnrichmentTarget(inst.id, LabelText(inst), p.key, p.value.GetOr("")) in all
      {
        EnrichmentRowsHas(store, store.instances, inst, EnrichmentTarget(inst.id, LabelText(inst), p.key, p.value.GetOr("")));
      }
    }
  }
}
