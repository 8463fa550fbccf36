/**
  The fact store as in-memory records: the four tables of the schema
  (src/ontology_llm/tools/sql_tools.py:9-38) without the classes table, which no
  query of the core reads. The order of each sequence stands for the order in which
  SQLite hands back rows; every query keeps it.
 */
module Ontology {

  import opened Wrappers
  import opened Text
  import opened Seqs

  datatype Instance = Instance(id: string, className: string, labelOpt: Option<string>)

  datatype Property = Property(instanceId: string, key: string, value: Option<string>)

  datatype Relation = Relation(source: string, kind: string, target: string)

  datatype Store = Store(instances: seq<Instance>, properties: seq<Property>, relations: seq<Relation>)

  /** One row of `instances LEFT JOIN properties ... GROUP BY i.id`: the id, the class,
      `COALESCE(label, '')` and the `'; '`-joined `key=value` text. */
  datatype FactRow = FactRow(id: string, className: string, labelText: string, props: string)

  const NoFactsSentinel: string := "No matching ontology facts found."

  function LabelText(inst: Instance): string { inst.labelOpt.GetOr("") }

  /** `key || '=' || value` for the properties of `id`, in store order. A NULL value makes
      the concatenation NULL, and `group_concat` skips NULLs. */
  function PropPairs(props: seq<Property>, id: string): seq<string>
  {
    if props == [] then []
    else
      (if props[0].instanceId == id && props[0].value.Some? then [props[0].key + "=" + props[0].value.value] else [])
      + PropPairs(props[1..], id)
  }

  function PropsText(store: Store, id: string): string {
    Join(PropPairs(store.properties, id), "; ")
  }

  function RowOf(store: Store, inst: Instance): FactRow {
    FactRow(inst.id, inst.className, LabelText(inst), PropsText(store, inst.id))
  }

  function RowsOf(store: Store, insts: seq<Instance>): (rows: seq<FactRow>)
    ensures |rows| == |insts|
    ensures forall k :: 0 <= k < |insts| ==> rows[k] == RowOf(store, insts[k])
  {
    seq(|insts|, k requires 0 <= k < |insts| => RowOf(store, insts[k]))
  }

  /** Some property of `id` has `term` in its lower-cased key or value
      (the `EXISTS (SELECT 1 FROM onto_properties p2 ...)` sub-query). */
  predicate PropertyMatches(store: Store, id: string, term: string) {
    exists p | p in store.properties ::
      p.instanceId == id && (Contains(Lower(p.key), term) || Contains(Lower(p.value.GetOr("")), term))
  }

  /** One OR-group of the lookup WHERE clause: `%term%` against id, class, label and properties. */
  predicate TermMatches(store: Store, inst: Instance, term: string) {
    Contains(Lower(inst.id), term) || Contains(Lower(inst.className), term)
    || Contains(Lower(LabelText(inst)), term) || PropertyMatches(store, inst.id, term)
  }

  predicate MatchesAny(store: Store, inst: Instance, terms: seq<string>) {
    exists t | t in terms :: TermMatches(store, inst, t)
  }

  function MatchingInstances(store: Store, insts: seq<Instance>, terms: seq<string>): (r: seq<Instance>)
    ensures |r| <= |insts|
    ensures forall x :: x in r <==> x in insts && MatchesAny(store, x, terms)
  {
    if insts == [] then []
    else
      (if MatchesAny(store, insts[0], terms) then [insts[0]] else [])
      + MatchingInstances(store, insts[1..], terms)
  }

  /** The rows `LOOKUP_QUERY_TEMPLATE` returns: matching instances cut by `LIMIT` before any scoring. */
  function LookupRows(store: Store, terms: seq<string>, limit: int): seq<FactRow> {
    RowsOf(store, SqlLimit(MatchingInstances(store, store.instances, terms), limit))
  }

  /** The empty term is the "match everything" sentinel: `LIKE '%%'` holds of every row. */
  lemma {:induction false} EmptyTermMatchesAll(store: Store, insts: seq<Instance>)
    ensures MatchingInstances(store, insts, [""]) == insts
  {
    if insts != [] {
      assert ContainsAt(Lower(insts[0].id), "", 0);
      assert TermMatches(store, insts[0], "");
      EmptyTermMatchesAll(store, insts[1..]);
      assert insts == [insts[0]] + insts[1..];
    }
  }

  /** Relations whose source is in `ids` (`WHERE source_id IN (...)`), in store order. */
  function RelationsFrom(rels: seq<Relation>, ids: set<string>): (r: seq<Relation>)
    ensures |r| <= |rels|
    ensures forall e :: e in r <==> e in rels && e.source in ids
  {
    if rels == [] then []
    else (if rels[0].source in ids then [rels[0]] else []) + RelationsFrom(rels[1..], ids)
  }

  /** Relations with source or target in `ids`. */
  function RelationsTouching(rels: seq<Relation>, ids: set<string>): (r: seq<Relation>)
    ensures |r| <= |rels|
    ensures forall e :: e in r <==> e in rels && (e.source in ids || e.target in ids)
  {
    if rels == [] then []
    else
      (if rels[0].source in ids || rels[0].target in ids then [rels[0]] else [])
      + RelationsTouching(rels[1..], ids)
  }

  function IdSet(rows: seq<FactRow>): (ids: set<string>)
    ensures forall id :: id in ids <==> exists k | 0 <= k < |rows| :: rows[k].id == id
  {
    set k | 0 <= k < |rows| :: rows[k].id
  }

  function SeqToSet(s: seq<string>): (r: set<string>)
    ensures forall x :: x in r <==> x in s
  {
    set x | x in s
  }

  /** The fact line rendering `- id (class) label='label' props=[k=v; ...]`. */
  function FactLine(row: FactRow): string {
    "- " + row.id + " (" + row.className + ") label='" + row.labelText + "' props=[" + row.props + "]"
  }

  /** The line rendering `- source -[type]-> target` shared by every relation block. */
  function RelationLine(e: Relation): string {
    "- " + e.source + " -[" + e.kind + "]-> " + e.target
  }

  function RelationLines(rels: seq<Relation>): (lines: seq<string>)
    ensures |lines| == |rels|
    ensures forall k :: 0 <= k < |rels| ==> lines[k] == RelationLine(rels[k])
  {
    seq(|rels|, k requires 0 <= k < |rels| => RelationLine(rels[k]))
  }
}
