/**
  The summaries behind the method dashboard (src/ontology_llm/dashboard_service.py): the
  ontology snapshot of a method's file, its reflection and blueprint, the node/edge chain of
  the method DAG, and the readiness of a method's ontology and setup. The YAML file arrives
  already parsed, as an optional `Payload`.
 */
module Dashboard {
  import opened Wrappers
  import opened Text
  import opened Seqs
  import opened SqlLookup

  // ================================================================ order-keeping sets

  /** `_unique_keep_order`: empty strings dropped, each other item at its first occurrence. */
  function UniqueKeepOrder(items: seq<string>): (r: seq<string>)
    ensures NoDups(r)
    ensures forall x :: x in r <==> x in items && x != ""
  {
    Dedupe(NonEmpty(items))
  }

  /** The non-empty items of a prefix are a prefix of the non-empty items. */
  lemma {:induction false} NonEmptyPrefix(items: seq<string>, k: nat)
    requires k <= |items|
    ensures |NonEmpty(items[..k])| <= |NonEmpty(items)|
    ensures NonEmpty(items[..k]) == NonEmpty(items)[..|NonEmpty(items[..k])|]
  {
    if k > 0 {
      assert items[..k][1..] == items[1..][..k - 1];
      NonEmptyPrefix(items[1..], k - 1);
    }
  }

  /** First-occurrence order: the result for a prefix of the items is a prefix of the
      result, so no item overtakes one that occurred before it. */
  lemma UniqueKeepOrderPrefix(items: seq<string>, k: nat)
    requires k <= |items|
    ensures |UniqueKeepOrder(items[..k])| <= |UniqueKeepOrder(items)|
    ensures UniqueKeepOrder(items[..k]) == UniqueKeepOrder(items)[..|UniqueKeepOrder(items[..k])|]
  {
    var ne := NonEmpty(items);
    var m := |NonEmpty(items[..k])|;
    NonEmptyPrefix(items, k);
    DedupePrefix(ne, m);
    assert ne[..m] == NonEmpty(items[..k]);
  }

  /** Applying it twice changes nothing. */
  lemma UniqueKeepOrderIdempotent(items: seq<string>)
    ensures UniqueKeepOrder(UniqueKeepOrder(items)) == UniqueKeepOrder(items)
  {
    var u := UniqueKeepOrder(items);
    NonEmptyOfNonEmpty(u);
    DedupeOfNoDups(u);
  }

  lemma {:induction false} NonEmptyOfNonEmpty(items: seq<string>)
    requires "" !in items
    ensures NonEmpty(items) == items
  {
    if items != [] {
      assert "" !in items[1..];
      NonEmptyOfNonEmpty(items[1..]);
    }
  }

  // ================================================================ previews

  /** `_preview`: "-" for no items; otherwise the first `maxItems` joined by ", ", followed
      by " 외 {n}개" naming how many were left out when there are more. */
  function Preview(items: seq<string>, maxItems: int): string {
    if items == [] then "-"
    else
      var head := PyPrefix(items, maxItems);
      var suffix := if |items| > maxItems then " 외 " + IntToString(|items| - maxItems) + "개" else "";
      Join(head, ", ") + suffix
  }

  /** What a preview shows: everything when the items fit, otherwise the first ones and a
      count of the rest that reads back as the number left out. */
  lemma PreviewShape(items: seq<string>, maxItems: int)
    ensures items == [] ==> Preview(items, maxItems) == "-"
    ensures items != [] && |items| <= maxItems ==> Preview(items, maxItems) == Join(items, ", ")
    ensures items != [] && maxItems >= 1 ==> StartsWith(Preview(items, maxItems), items[0])
    ensures 0 <= maxItems < |items| ==>
      var r := Preview(items, maxItems);
      var count := IntToString(|items| - maxItems);
      && EndsWith(r, " 외 " + count + "개")
      && ParseInt(count) == Some(|items| - maxItems)
  {
    if items != [] && maxItems >= 1 {
      PreviewHead(items, maxItems);
    }
    if 0 <= maxItems < |items| {
      PreviewCount(items, maxItems);
    }
  }

  lemma PreviewHead(items: seq<string>, maxItems: int)
    requires items != [] && maxItems >= 1
    ensures StartsWith(Preview(items, maxItems), items[0])
  {
    var head := PyPrefix(items, maxItems);
    var suffix := if |items| > maxItems then " 외 " + IntToString(|items| - maxItems) + "개" else "";
    var joined := Join(head, ", ");
    JoinStartsWith(head, ", ");
    assert head[0] == items[0];
    assert Preview(items, maxItems) == joined + suffix;
    assert (joined + suffix)[..|items[0]|] == joined[..|items[0]|];
  }

  lemma PreviewCount(items: seq<string>, maxItems: int)
    requires 0 <= maxItems < |items|
    ensures EndsWith(Preview(items, maxItems), " 외 " + IntToString(|items| - maxItems) + "개")
    ensures ParseInt(IntToString(|items| - maxItems)) == Some(|items| - maxItems)
  {
    ParseIntOfIntToString(|items| - maxItems);
    var suffix := " 외 " + IntToString(|items| - maxItems) + "개";
    var joined := Join(PyPrefix(items, maxItems), ", ");
    SuffixOfConcat(joined, suffix, suffix);
    assert Preview(items, maxItems) == joined + suffix;
  }


  // ================================================================ the snapshot

  /** An instance record as `str()` renders its fields; a missing field is "". */
  datatype Instance = Instance(id: string, className: string, labelText: string, propertyKeys: seq<string>)

  /** A parsed ontology file: how many classes, its instances, and the `type` of each
      relation. */
  datatype Payload = Payload(classCount: nat, instances: seq<Instance>, relationTypes: seq<string>)

  datatype Snapshot = Snapshot(
    classCount: nat, instanceCount: nat, relationCount: nat, candidateCount: nat,
    productLabels: seq<string>, ruleIds: seq<string>, relationTypes: seq<string>, propertyKeys: seq<string>)

  /** `OntologySnapshot()`: every count zero, every list empty. */
  const EmptySnapshot: Snapshot := Snapshot(0, 0, 0, 0, [], [], [], [])

  function InstId(inst: Instance): string { Strip(inst.id) }
  function ClassName(inst: Instance): string { Lower(Strip(inst.className)) }
  function Label(inst: Instance): string { Strip(inst.labelText) }

  /** A product: class product or beverage, an id ending in `_MILK`, or "우유" (milk) in
      the label. */
  predicate IsProduct(inst: Instance) {
    ClassName(inst) in {"product", "beverage"} || EndsWith(InstId(inst), "_MILK") || Contains(Label(inst), "우유")
  }

  /** A rule: class constraint, rule, policy or guardrail, or an id with a rule prefix. */
  predicate IsRule(inst: Instance) {
    ClassName(inst) in {"constraint", "rule", "policy", "guardrail"}
    || StartsWith(InstId(inst), "RULE_") || StartsWith(InstId(inst), "CONS_") || StartsWith(InstId(inst), "POLICY_")
  }

  /** A candidate answer: class candidateanswer or an id starting `CAND_`. */
  predicate IsCandidate(inst: Instance) {
    ClassName(inst) == "candidateanswer" || StartsWith(InstId(inst), "CAND_")
  }

  /** `label or inst_id` and `inst_id or label`. */
  function ProductEntry(inst: Instance): string { if Label(inst) != "" then Label(inst) else InstId(inst) }
  function RuleEntry(inst: Instance): string { if InstId(inst) != "" then InstId(inst) else Label(inst) }

  /** The entries of the items that are kept, in order. */
  function Collect<T>(items: seq<T>, keep: T -> bool, entry: T -> string): seq<string> {
    if items == [] then []
    else
      var last := items[|items| - 1];
      Collect(items[..|items| - 1], keep, entry) + (if keep(last) then [entry(last)] else [])
  }

  /** How many of the items satisfy `p`. */
  function CountWhere<T>(items: seq<T>, p: T -> bool): nat {
    if items == [] then 0
    else CountWhere(items[..|items| - 1], p) + (if p(items[|items| - 1]) then 1 else 0)
  }

  function ProductLabelsOf(insts: seq<Instance>): seq<string> { Collect(insts, IsProduct, ProductEntry) }
  function RuleIdsOf(insts: seq<Instance>): seq<string> { Collect(insts, IsRule, RuleEntry) }
  function CandidatesOf(insts: seq<Instance>): nat { CountWhere(insts, IsCandidate) }

  /** The stripped keys that are not empty. */
  function KeysOf(keys: seq<string>): seq<string> {
    if keys == [] then []
    else
      var key := Strip(keys[|keys| - 1]);
      KeysOf(keys[..|keys| - 1]) + (if key != "" then [key] else [])
  }

  function PropertyKeysOf(insts: seq<Instance>): seq<string> {
    if insts == [] then []
    else PropertyKeysOf(insts[..|insts| - 1]) + KeysOf(insts[|insts| - 1].propertyKeys)
  }

  /** The snapshot of a file: all zero when it does not exist. */
  function SnapshotSpec(payload: Option<Payload>): Snapshot {
    if payload.None? then EmptySnapshot
    else
      var p := payload.value;
      Snapshot(p.classCount, |p.instances|, |p.relationTypes|, CandidatesOf(p.instances),
               UniqueKeepOrder(ProductLabelsOf(p.instances)), UniqueKeepOrder(RuleIdsOf(p.instances)),
               UniqueKeepOrder(KeysOf(p.relationTypes)), UniqueKeepOrder(PropertyKeysOf(p.instances)))
  }

  /** The inner loop: the stripped, non-empty keys appended one by one. */
  method CollectKeys(keys: seq<string>) returns (collected: seq<string>)
    ensures collected == KeysOf(keys)
  {
    collected := [];
    for j := 0 to |keys|
      invariant collected == KeysOf(keys[..j])
    {
      assert keys[..j + 1][..j] == keys[..j];
      var key := Strip(keys[j]);
      if key != "" {
        collected := collected + [key];
      }
    }
    assert keys[..|keys|] == keys;
  }

  /** One more instance extends each of the four results by that instance's share. */
  lemma ClassifyStep(instances: seq<Instance>, i: int)
    requires 0 <= i < |instances|
    ensures var inst := instances[i];
      && ProductLabelsOf(instances[..i + 1])
         == ProductLabelsOf(instances[..i]) + (if IsProduct(inst) then [ProductEntry(inst)] else [])
      && RuleIdsOf(instances[..i + 1]) == RuleIdsOf(instances[..i]) + (if IsRule(inst) then [RuleEntry(inst)] else [])
      && CandidatesOf(instances[..i + 1]) == CandidatesOf(instances[..i]) + (if IsCandidate(inst) then 1 else 0)
      && PropertyKeysOf(instances[..i + 1]) == PropertyKeysOf(instances[..i]) + KeysOf(inst.propertyKeys)
  {
    assert instances[..i + 1][..i] == instances[..i];
  }

  /** The pass over the instances: four lists appended to and a candidate counter. */
  method ClassifyInstances(instances: seq<Instance>)
    returns (productLabels: seq<string>, ruleIds: seq<string>, candidateCount: nat, propertyKeys: seq<string>)
    ensures productLabels == ProductLabelsOf(instances) && ruleIds == RuleIdsOf(instances)
    ensures candidateCount == CandidatesOf(instances) && propertyKeys == PropertyKeysOf(instances)
  {
    productLabels, ruleIds, candidateCount, propertyKeys := [], [], 0, [];
    for i := 0 to |instances|
      invariant productLabels == ProductLabelsOf(instances[..i])
      invariant ruleIds == RuleIdsOf(instances[..i])
      invariant candidateCount == CandidatesOf(instances[..i])
      invariant propertyKeys == PropertyKeysOf(instances[..i])
    {
      var inst := instances[i];
      ClassifyStep(instances, i);
      if IsProduct(inst) {
        productLabels := productLabels + [ProductEntry(inst)];
      }
      if IsRule(inst) {
        ruleIds := ruleIds + [RuleEntry(inst)];
      }
      if IsCandidate(inst) {
        candidateCount := candidateCount + 1;
      }
      var keys := CollectKeys(inst.propertyKeys);
      propertyKeys := propertyKeys + keys;
    }
    assert instances[..|instances|] == instances;
  }

  /** `_load_method_ontology_snapshot` over a parsed file: the all-zero snapshot when the
      file is missing, else one pass over the instances and one over the relations, with
      the four lists de-duplicated. */
  method LoadSnapshot(payload: Option<Payload>) returns (snapshot: Snapshot)
    ensures snapshot == SnapshotSpec(payload)
  {
    if payload.None? {
      return EmptySnapshot;
    }
    var instances := payload.value.instances;
    var productLabels, ruleIds, candidateCount, propertyKeys := ClassifyInstances(instances);
    var relationTypes := CollectKeys(payload.value.relationTypes);
    snapshot := Snapshot(payload.value.classCount, |instances|, |payload.value.relationTypes|, candidateCount,
                         UniqueKeepOrder(productLabels), UniqueKeepOrder(ruleIds),
                         UniqueKeepOrder(relationTypes), UniqueKeepOrder(propertyKeys));
  }

  lemma {:induction false} CollectMembers<T>(items: seq<T>, keep: T -> bool, entry: T -> string, x: string)
    ensures x in Collect(items, keep, entry) <==> exists i :: 0 <= i < |items| && keep(items[i]) && entry(items[i]) == x
  {
    if items != [] {
      var init := items[..|items| - 1];
      CollectMembers(init, keep, entry, x);
      assert forall i :: 0 <= i < |init| ==> init[i] == items[i];
    }
  }

  lemma {:induction false} CountWhereBounded<T>(items: seq<T>, p: T -> bool)
    ensures CountWhere(items, p) <= |items|
    ensures CountWhere(items, p) == |items| <==> forall i :: 0 <= i < |items| ==> p(items[i])
  {
    if items != [] {
      var init := items[..|items| - 1];
      CountWhereBounded(init, p);
      assert forall i :: 0 <= i < |init| ==> init[i] == items[i];
    }
  }

  /** What the snapshot lists: a missing file gives the empty snapshot; otherwise the
      product labels are exactly the non-empty entries of product instances (and the rule
      ids those of rule instances), without repeats, and no more candidates are counted
      than there are instances. */
  lemma SnapshotClassifies(payload: Option<Payload>, x: string)
    ensures payload.None? ==> SnapshotSpec(payload) == EmptySnapshot
    ensures payload.Some? ==>
      var s := SnapshotSpec(payload);
      var insts := payload.value.instances;
      && (x in s.productLabels <==> x != "" && exists i :: 0 <= i < |insts| && IsProduct(insts[i]) && ProductEntry(insts[i]) == x)
      && (x in s.ruleIds <==> x != "" && exists i :: 0 <= i < |insts| && IsRule(insts[i]) && RuleEntry(insts[i]) == x)
      && NoDups(s.productLabels) && NoDups(s.ruleIds) && NoDups(s.propertyKeys) && NoDups(s.relationTypes)
      && s.candidateCount <= s.instanceCount
  {
    if payload.Some? {
      CollectMembers(payload.value.instances, IsProduct, ProductEntry, x);
      CollectMembers(payload.value.instances, IsRule, RuleEntry, x);
      CountWhereBounded(payload.value.instances, IsCandidate);
    }
  }

  // ================================================================ the reflection

  /** The property keys shown first, in this order, when the ontology has them. */
  const PreferredOrder: seq<string> :=
    ["alias", "keyword", "category", "price_krw", "stock", "descriptor", "rule", "template", "missing_property"]

  /** The preferred keys are nine different names. */
  lemma PreferredOrderNoDups()
    ensures NoDups(PreferredOrder)
  {
  }

  /** `[key for key in preferred if key in keys]`. */
  function Present(preferred: seq<string>, keys: seq<string>): (r: seq<string>)
    ensures forall k :: k in r <==> k in preferred && k in keys
  {
    if preferred == [] then []
    else (if preferred[0] in keys then [preferred[0]] else []) + Present(preferred[1..], keys)
  }

  /** `[key for key in keys if key not in ordered]`. */
  function Absent(keys: seq<string>, ordered: seq<string>): (r: seq<string>)
    ensures forall k :: k in r <==> k in keys && k !in ordered
  {
    if keys == [] then []
    else (if keys[0] !in ordered then [keys[0]] else []) + Absent(keys[1..], ordered)
  }

  /** The preferred keys that are present, then the others in snapshot order, at most 8. */
  function FocusProperties(keys: seq<string>): seq<string> {
    var ordered := Present(PreferredOrder, keys);
    PyPrefix(ordered + Absent(keys, ordered), 8)
  }

  lemma {:induction false} PresentNoDups(preferred: seq<string>, keys: seq<string>)
    requires NoDups(preferred)
    ensures NoDups(Present(preferred, keys))
  {
    if preferred != [] {
      assert NoDups(preferred[1..]);
      PresentNoDups(preferred[1..], keys);
      assert preferred[0] !in preferred[1..];
    }
  }

  lemma {:induction false} AbsentNoDups(keys: seq<string>, ordered: seq<string>)
    requires NoDups(keys)
    ensures NoDups(Absent(keys, ordered))
  {
    if keys != [] {
      assert NoDups(keys[1..]);
      AbsentNoDups(keys[1..], ordered);
      assert keys[0] !in keys[1..];
    }
  }

  lemma NoDupsConcat(a: seq<string>, b: seq<string>)
    requires NoDups(a) && NoDups(b) && forall x :: x in a ==> x !in b
    ensures NoDups(a + b)
  {
    forall i, j | 0 <= i < j < |a + b|
      ensures (a + b)[i] != (a + b)[j]
    {
      if j >= |a| && i < |a| {
        assert (a + b)[i] in a && (a + b)[j] in b;
      }
    }
  }

  /** The focus list holds at most 8 keys, all of the ontology's; every key would be
      listed before the cut; and with distinct keys, none repeats. */
  lemma FocusPropertiesShape(keys: seq<string>)
    ensures var f := FocusProperties(keys);
      var ordered := Present(PreferredOrder, keys);
      && |f| <= 8
      && (forall k :: k in f ==> k in keys)
      && (forall k :: k in keys <==> k in ordered + Absent(keys, ordered))
      && (NoDups(keys) ==> NoDups(f))
  {
    var ordered := Present(PreferredOrder, keys);
    var all := ordered + Absent(keys, ordered);
    var f := FocusProperties(keys);
    assert f == all[..|f|];
    if NoDups(keys) {
      FocusPropertiesDistinct(keys);
    }
  }

  /** The preferred keys that are present lead the focus list in preferred order, and any
      other key is shown only after them. */
  lemma FocusPropertiesOrder(keys: seq<string>)
    ensures var f := FocusProperties(keys);
      var ordered := Present(PreferredOrder, keys);
      && (|ordered| <= |f| ==> f[..|ordered|] == ordered)
      && (forall i :: 0 <= i < |f| && f[i] !in PreferredOrder ==> |ordered| <= i)
  {
    var ordered := Present(PreferredOrder, keys);
    var all := ordered + Absent(keys, ordered);
    var f := FocusProperties(keys);
    assert f == all[..|f|];
  }

  /** Distinct keys give distinct focus properties. */
  lemma FocusPropertiesDistinct(keys: seq<string>)
    requires NoDups(keys)
    ensures NoDups(FocusProperties(keys))
  {
    var ordered := Present(PreferredOrder, keys);
    var all := ordered + Absent(keys, ordered);
    PreferredOrderNoDups();
    PresentNoDups(PreferredOrder, keys);
    AbsentNoDups(keys, ordered);
    NoDupsConcat(ordered, Absent(keys, ordered));
    assert FocusProperties(keys) == all[..|FocusProperties(keys)|];
  }

  datatype Reflection = Reflection(
    classes: nat, instances: nat, relations: nat, candidates: nat,
    productLabels: seq<string>, ruleIds: seq<string>, relationTypes: seq<string>, focusProperties: seq<string>)

  /** `_build_method_reflection`: the four counts, and every list cut to its first 8. */
  function BuildReflection(s: Snapshot): (r: Reflection)
    ensures |r.productLabels| == Min(8, |s.productLabels|) && r.productLabels == s.productLabels[..|r.productLabels|]
    ensures |r.ruleIds| == Min(8, |s.ruleIds|) && r.ruleIds == s.ruleIds[..|r.ruleIds|]
    ensures |r.relationTypes| == Min(8, |s.relationTypes|) && r.relationTypes == s.relationTypes[..|r.relationTypes|]
    ensures |s.productLabels| <= 8 ==> r.productLabels == s.productLabels
    ensures r.classes == s.classCount && r.instances == s.instanceCount
    ensures r.relations == s.relationCount && r.candidates == s.candidateCount
  {
    Reflection(s.classCount, s.instanceCount, s.relationCount, s.candidateCount,
               PyPrefix(s.productLabels, 8), PyPrefix(s.ruleIds, 8), PyPrefix(s.relationTypes, 8),
               FocusProperties(s.propertyKeys))
  }

  // ================================================================ the blueprint

  /** The lines of each of the four stages of a method. */
  datatype Blueprint = Blueprint(received: seq<string>, lookup: seq<string>, compare: seq<string>, generate: seq<string>)

  /** `_build_method_blueprint`: the method's text with previews of its snapshot; an
      unknown id gets method1's. */
  function BlueprintFor(methodId: string, s: Snapshot): (bp: Blueprint)
    ensures |bp.received| == 2 && |bp.lookup| == 2 && |bp.compare| == 2 && |bp.generate| == 2
  {
    var productPreview := Preview(s.productLabels, 4);
    var rulePreview := Preview(s.ruleIds, 3);
    var relationPreview := Preview(s.relationTypes, 4);
    var propertyPreview := Preview(s.propertyKeys, 5);
    if methodId == "method2" then
      Blueprint(
        ["질문 의도 분류 및 규칙 슬롯 추출", "정책 적용 대상 엔티티 식별"],
        ["Constraint/Policy 노드 로드 (" + rulePreview + ")", "규칙 applies_to 대상 제품 fact 로드"],
        ["규칙 충돌 검사 및 우선순위 결정", "규칙 준수 여부를 컨텍스트에 명시"],
        ["규칙 준수 답변 생성", "적용된 규칙/템플릿 로그 기록"])
    else if methodId == "method3" then
      Blueprint(
        ["질문에서 핵심 엔티티/관계 힌트 추출", "근거형 답변 모드 설정"],
        ["제품 + 공급사/프로모션 노드 조회", "관계 evidence 수집 (" + relationPreview + ")"],
        ["node fact + relation evidence 병합", "근거 점수 기반 후보 재정렬"],
        ["근거 인용형 답변 생성", "근거 부족 시 fallback 안내"])
    else if methodId == "method4" then
      Blueprint(
        ["질문 정규화 및 seed entity 선정", "경로 탐색 파라미터 초기화"],
        ["1-hop 경로 탐색 후 multi-hop 확장", "경로 후보 수집 (" + relationPreview + ")"],
        ["경로 제약 검증 및 추론 가능성 확인", "경로 신뢰도 기반 우선순위화"],
        ["선택 경로를 설명형 답변으로 생성", "사용 경로 trace 로그 저장"])
    else if methodId == "method5" then
      Blueprint(
        ["질문 정규화 및 임베딩 입력 구성", "descriptor/동의어 확장 후보 생성"],
        ["dense similarity top-k 후보 조회", "유사도 근거 속성 로드 (" + propertyPreview + ")"],
        ["dense score + lexical score 결합", "하이브리드 재정렬로 최종 후보 선택"],
        ["유사도 근거 포함 답변 생성", "top-k 근거 로그 출력"])
    else if methodId == "method6" then
      Blueprint(
        ["질문 정규화 및 symbolic constraint 탐지", "신경망 생성 모드 준비"],
        ["dense/lexical 후보 fact 로드", "Rule/Constraint 세트 로드 (" + rulePreview + ")"],
        ["LLM 초안 후보와 symbolic rule 대조", "위반 항목 자동 수정 및 재검증"],
        ["검증 통과 답변 생성", "rule enforcement 로그 기록"])
    else if methodId == "method7" then
      Blueprint(
        ["질문 정규화 및 검증 전략 선택", "후보 생성/검증 파이프라인 준비"],
        ["후보 답안 생성 (" + NatToString(s.candidateCount) + "개 패턴)", "검증 근거 relation/fact 조회"],
        ["제약 검증 수행 (" + rulePreview + ")", "저신뢰 후보 탈락 후 재평가"],
        ["검증 통과 답변 생성", "confidence score 및 검증 로그 기록"])
    else if methodId == "method8" then
      Blueprint(
        ["질문 정규화 및 결손 시그널 탐지", "보강 제안 모드 활성화"],
        ["missing_property/질의 로그 근거 조회", "현재 제품/속성 스냅샷 로드 (" + productPreview + ")"],
        ["보강 후보 충돌/중복 검증", "보강 우선순위 큐 생성"],
        ["안전 답변 + 온톨로지 보강 제안 생성", "ontology update draft 기록"])
    else
      Blueprint(
        ["질문 정규화 및 alias 토큰 추출", "표면형 질의어를 제품 엔티티 후보로 변환"],
        ["alias/keyword 매칭으로 제품 후보 조회 (" + productPreview + ")", "price_krw/category/stock 핵심 속성 로드"],
        ["matched_terms/field 기반 후보 점수 계산", "질문 의도와 정합되는 사실 우선 선택"],
        ["근거 사실 우선 답변 생성", "근거 부족 시 안전 문장으로 마무리"])
  }

  /** An id other than method2-method8 gets method1's blueprint. */
  lemma BlueprintFallback(methodId: string, s: Snapshot)
    requires methodId !in {"method2", "method3", "method4", "method5", "method6", "method7", "method8"}
    ensures BlueprintFor(methodId, s) == BlueprintFor("method1", s)
  {
  }

  // ================================================================ the DAG

  /** The runtime stages in order, with their ids and titles. */
  const RuntimeKeys: seq<string> := ["received", "lookup", "compare", "generate"]
  const StageIds: seq<string> := ["s1", "s2", "s3", "s4"]
  const StageTitles: seq<string> :=
    ["1) Query Understanding", "2) Ontology Retrieval", "3) Validation / Context", "4) LLM Generation"]

  lemma RuntimeKeysDistinct(s: nat, t: nat)
    requires s < t < 4
    ensures RuntimeKeys[s] != RuntimeKeys[t]
  {
    assert RuntimeKeys[s][0] != RuntimeKeys[t][0] || |RuntimeKeys[s]| != |RuntimeKeys[t]|;
  }

  function StageLines(bp: Blueprint, s: nat): seq<string>
    requires s < 4
  {
    if s == 0 then bp.received else if s == 1 then bp.lookup else if s == 2 then bp.compare else bp.generate
  }

  datatype Stage = Stage(id: string, title: string, runtimeStage: string)
  datatype Node = Node(id: string, labelText: string, stage: string, lane: int, runtimeStage: string)
  datatype Edge = Edge(source: string, target: string, order: int)
  datatype Dag = Dag(stages: seq<Stage>, nodes: seq<Node>, edges: seq<Edge>)

  const Stages: seq<Stage> := [
    Stage(StageIds[0], StageTitles[0], RuntimeKeys[0]), Stage(StageIds[1], StageTitles[1], RuntimeKeys[1]),
    Stage(StageIds[2], StageTitles[2], RuntimeKeys[2]), Stage(StageIds[3], StageTitles[3], RuntimeKeys[3])]

  /** `f"{n:02d}"`: at least two digits, zero-padded. */
  function Pad2(n: nat): (r: string)
    ensures |r| >= 2 && AllDigits(r)
  {
    if n < 10 then "0" + NatToString(n) else NatToString(n)
  }

  function NodeId(n: nat): string { "n" + Pad2(n) }

  lemma Pad2Value(n: nat)
    ensures DigitsValue(Pad2(n)) == n
  {
    DigitsValueOfNatToString(n);
    if n < 10 {
      var p := Pad2(n);
      assert p[..|p| - 1] == "0";
    }
  }

  /** Node ids are distinct, and the first is "n01". */
  lemma NodeIdInjective(a: nat, b: nat)
    ensures NodeId(a) == NodeId(b) <==> a == b
    ensures NodeId(1) == "n01"
  {
    if NodeId(a) == NodeId(b) {
      assert Pad2(a) == NodeId(a)[1..] && Pad2(b) == NodeId(b)[1..];
      Pad2Value(a);
      Pad2Value(b);
    }
  }

  /** One node to be placed: its stage, label and lane. */
  datatype Slot = Slot(key: string, stageId: string, labelText: string, lane: nat)

  function StageSlots(bp: Blueprint, s: nat): (r: seq<Slot>)
    requires s < 4
    ensures |r| == |StageLines(bp, s)|
  {
    seq(|StageLines(bp, s)|, j requires 0 <= j < |StageLines(bp, s)| => Slot(RuntimeKeys[s], StageIds[s], StageLines(bp, s)[j], j))
  }

  /** The slots of the first `s` stages, stage by stage. */
  function SlotsUpTo(bp: Blueprint, s: nat): seq<Slot>
    requires s <= 4
  {
    if s == 0 then [] else SlotsUpTo(bp, s - 1) + StageSlots(bp, s - 1)
  }

  function NodeOf(slot: Slot, i: nat): Node {
    Node(NodeId(i + 1), slot.labelText, slot.stageId, slot.lane, slot.key)
  }

  function NodesOf(slots: seq<Slot>): (r: seq<Node>)
    ensures |r| == |slots|
  {
    seq(|slots|, i requires 0 <= i < |slots| => NodeOf(slots[i], i))
  }

  /** Each node after the first is linked from the one before it, numbered from 1. */
  function EdgesFor(n: nat): (r: seq<Edge>)
    ensures |r| == if n == 0 then 0 else n - 1
  {
    seq(if n == 0 then 0 else n - 1, i requires 0 <= i => Edge(NodeId(i + 1), NodeId(i + 2), i + 1))
  }

  function DagSpec(methodId: string, snapshot: Option<Snapshot>): Dag {
    var loaded := if snapshot.Some? then snapshot.value else EmptySnapshot;
    var slots := SlotsUpTo(BlueprintFor(methodId, loaded), 4);
    Dag(Stages, NodesOf(slots), EdgesFor(|slots|))
  }

  /** `defaultdict(int)` lookup. */
  function Lane(laneMap: map<string, int>, key: string): int {
    if key in laneMap then laneMap[key] else 0
  }

  lemma NodesOfSnoc(xs: seq<Slot>, x: Slot)
    ensures NodesOf(xs + [x]) == NodesOf(xs) + [NodeOf(x, |xs|)]
  {
    assert forall i :: 0 <= i < |xs| ==> (xs + [x])[i] == xs[i];
  }

  lemma EdgesForSnoc(n: nat)
    requires n >= 1
    ensures EdgesFor(n + 1) == EdgesFor(n) + [Edge(NodeId(n), NodeId(n + 1), n)]
  {
  }

  /** The loop state of `build_method_dag` once the first `s` stages are placed. */
  predicate Placed(selected: Blueprint, s: nat, laneMap: map<string, int>, nodes: seq<Node>, edges: seq<Edge>,
                   prevNodeId: Option<string>, nodeIdx: int)
    requires s <= 4
  {
    && nodes == NodesOf(SlotsUpTo(selected, s))
    && edges == EdgesFor(|nodes|)
    && nodeIdx == |nodes| + 1
    && prevNodeId == (if nodes == [] then None else Some(NodeId(|nodes|)))
    && forall t :: s <= t < 4 ==> RuntimeKeys[t] !in laneMap
  }

  /** One stage of `build_method_dag`: a node per line on the stage's next lane, each linked
      from the node placed before it. */
  method PlaceStage(selected: Blueprint, s: nat, laneMap0: map<string, int>, nodes0: seq<Node>, edges0: seq<Edge>,
                    prevNodeId0: Option<string>, nodeIdx0: int)
    returns (laneMap: map<string, int>, nodes: seq<Node>, edges: seq<Edge>, prevNodeId: Option<string>, nodeIdx: int)
    requires s < 4 && Placed(selected, s, laneMap0, nodes0, edges0, prevNodeId0, nodeIdx0)
    ensures Placed(selected, s + 1, laneMap, nodes, edges, prevNodeId, nodeIdx)
  {
    laneMap, nodes, edges, prevNodeId, nodeIdx := laneMap0, nodes0, edges0, prevNodeId0, nodeIdx0;
    var key := RuntimeKeys[s];
    var labels := StageLines(selected, s);
    var done := SlotsUpTo(selected, s);
    var stage := StageSlots(selected, s);
    for j := 0 to |labels|
      invariant nodes == NodesOf(done + stage[..j])
      invariant edges == EdgesFor(|nodes|)
      invariant nodeIdx == |nodes| + 1
      invariant prevNodeId == if nodes == [] then None else Some(NodeId(|nodes|))
      invariant Lane(laneMap, key) == j
      invariant forall t :: s < t < 4 ==> RuntimeKeys[t] !in laneMap
    {
      var nodeId := NodeId(nodeIdx);
      NodesOfSnoc(done + stage[..j], stage[j]);
      AppendSliceSnoc(done, stage, j + 1);
      forall t | s < t < 4
        ensures RuntimeKeys[t] != key
      {
        RuntimeKeysDistinct(s, t);
      }
      nodes := nodes + [Node(nodeId, labels[j], StageIds[s], Lane(laneMap, key), key)];
      laneMap := laneMap[key := Lane(laneMap, key) + 1];
      if prevNodeId.Some? {
        EdgesForSnoc(|nodes| - 1);
        edges := edges + [Edge(prevNodeId.value, nodeId, |edges| + 1)];
      }
      prevNodeId := Some(nodeId);
      nodeIdx := nodeIdx + 1;
    }
    assert stage[..|labels|] == stage;
  }

  /** `build_method_dag`: the four stages, then a node per blueprint line, stage by stage,
      each on the next lane of its stage and linked from the node before it. */
  method BuildMethodDag(methodId: string, snapshot: Option<Snapshot>) returns (dag: Dag)
    ensures dag == DagSpec(methodId, snapshot)
  {
    var loaded := if snapshot.Some? then snapshot.value else EmptySnapshot;
    var selected := BlueprintFor(methodId, loaded);
    var laneMap: map<string, int> := map[];
    var nodes: seq<Node> := [];
    var edges: seq<Edge> := [];
    var prevNodeId: Option<string> := None;
    var nodeIdx := 1;
    for s := 0 to 4
      invariant Placed(selected, s, laneMap, nodes, edges, prevNodeId, nodeIdx)
    {
      laneMap, nodes, edges, prevNodeId, nodeIdx := PlaceStage(selected, s, laneMap, nodes, edges, prevNodeId, nodeIdx);
    }
    dag := Dag(Stages, nodes, edges);
  }

  /** How many of the nodes belong to a stage. */
  function CountStage(nodes: seq<Node>, key: string): nat {
    if nodes == [] then 0
    else CountStage(nodes[..|nodes| - 1], key) + (if nodes[|nodes| - 1].runtimeStage == key then 1 else 0)
  }

  /** Lanes count the earlier nodes of the same stage. */
  predicate LanesCount(nodes: seq<Node>) {
    forall i :: 0 <= i < |nodes| ==> nodes[i].lane == CountStage(nodes[..i], nodes[i].runtimeStage)
  }

  lemma LanesSnoc(ns: seq<Node>, n: Node)
    requires LanesCount(ns) && n.lane == CountStage(ns, n.runtimeStage)
    ensures LanesCount(ns + [n])
    ensures forall key :: CountStage(ns + [n], key) == CountStage(ns, key) + (if n.runtimeStage == key then 1 else 0)
  {
    var ms := ns + [n];
    assert ms[..|ms| - 1] == ns;
    forall i | 0 <= i < |ms|
      ensures ms[i].lane == CountStage(ms[..i], ms[i].runtimeStage)
    {
      if i < |ns| {
        assert ms[..i] == ns[..i];
      }
    }
  }

  lemma {:induction false} StageLanes(done: seq<Slot>, bp: Blueprint, s: nat, j: nat)
    requires s < 4 && j <= |StageLines(bp, s)|
    requires LanesCount(NodesOf(done)) && CountStage(NodesOf(done), RuntimeKeys[s]) == 0
    ensures LanesCount(NodesOf(done + StageSlots(bp, s)[..j]))
    ensures CountStage(NodesOf(done + StageSlots(bp, s)[..j]), RuntimeKeys[s]) == j
    ensures forall key :: key != RuntimeKeys[s] ==>
      CountStage(NodesOf(done + StageSlots(bp, s)[..j]), key) == CountStage(NodesOf(done), key)
  {
    if j == 0 {
      assert done + StageSlots(bp, s)[..0] == done;
    } else {
      StageLanes(done, bp, s, j - 1);
      var prev := done + StageSlots(bp, s)[..j - 1];
      var slot := StageSlots(bp, s)[j - 1];
      AppendSliceSnoc(done, StageSlots(bp, s), j);
      NodesOfSnoc(prev, slot);
      LanesSnoc(NodesOf(prev), NodeOf(slot, |prev|));
    }
  }

  lemma {:induction false} SlotsLanes(bp: Blueprint, s: nat)
    requires s <= 4
    ensures LanesCount(NodesOf(SlotsUpTo(bp, s)))
    ensures forall t :: s <= t < 4 ==> CountStage(NodesOf(SlotsUpTo(bp, s)), RuntimeKeys[t]) == 0
  {
    if s > 0 {
      var done := SlotsUpTo(bp, s - 1);
      var stage := StageSlots(bp, s - 1);
      SlotsLanes(bp, s - 1);
      StageLanes(done, bp, s - 1, |StageLines(bp, s - 1)|);
      assert stage[..|StageLines(bp, s - 1)|] == stage;
      assert SlotsUpTo(bp, s) == done + stage;
      forall t | s <= t < 4
        ensures CountStage(NodesOf(SlotsUpTo(bp, s)), RuntimeKeys[t]) == 0
      {
        RuntimeKeysDistinct(s - 1, t);
      }
    } else {
      assert NodesOf([]) == [];
    }
  }

  /** The DAG has the four stages s1-s4 in runtime order, and node ids n01, n02, ... that
      are distinct. */
  lemma DagShape(methodId: string, snapshot: Option<Snapshot>)
    ensures var d := DagSpec(methodId, snapshot);
      && |d.stages| == 4
      && (forall i :: 0 <= i < 4 ==> d.stages[i].id == "s" + NatToString(i + 1) && d.stages[i].runtimeStage == RuntimeKeys[i])
      && (forall i :: 0 <= i < |d.nodes| ==> d.nodes[i].id == NodeId(i + 1))
      && (forall i, j :: 0 <= i < j < |d.nodes| ==> d.nodes[i].id != d.nodes[j].id)
  {
    var loaded := if snapshot.Some? then snapshot.value else EmptySnapshot;
    var slots := SlotsUpTo(BlueprintFor(methodId, loaded), 4);
    assert DagSpec(methodId, snapshot) == Dag(Stages, NodesOf(slots), EdgesFor(|slots|));
    StagesInOrder();
    NodeIdsDistinct(slots);
  }

  /** There is one edge fewer than nodes, each from a node to the next, with `order`
      1, 2, .... */
  lemma DagEdges(methodId: string, snapshot: Option<Snapshot>)
    ensures var d := DagSpec(methodId, snapshot);
      && (d.nodes != [] ==> |d.edges| == |d.nodes| - 1)
      && (forall i :: 0 <= i < |d.edges| ==>
            d.edges[i].source == d.nodes[i].id && d.edges[i].target == d.nodes[i + 1].id && d.edges[i].order == i + 1)
  {
    var loaded := if snapshot.Some? then snapshot.value else EmptySnapshot;
    var slots := SlotsUpTo(BlueprintFor(methodId, loaded), 4);
    assert DagSpec(methodId, snapshot) == Dag(Stages, NodesOf(slots), EdgesFor(|slots|));
    EdgesLinkNodes(slots);
  }

  /** Node `i` is `n` followed by `i + 1` in two or more digits, so no two share an id. */
  lemma NodeIdsDistinct(slots: seq<Slot>)
    ensures var nodes := NodesOf(slots);
      && (forall i :: 0 <= i < |nodes| ==> nodes[i].id == NodeId(i + 1))
      && (forall i, j :: 0 <= i < j < |nodes| ==> nodes[i].id != nodes[j].id)
  {
    var nodes := NodesOf(slots);
    forall i, j | 0 <= i < j < |nodes|
      ensures nodes[i].id != nodes[j].id
    {
      NodeIdInjective(i + 1, j + 1);
    }
  }

  /** Edge `i` runs from node `i` to node `i + 1`. */
  lemma EdgesLinkNodes(slots: seq<Slot>)
    ensures var nodes := NodesOf(slots);
      var edges := EdgesFor(|slots|);
      && (nodes != [] ==> |edges| == |nodes| - 1)
      && (forall i :: 0 <= i < |edges| ==>
            edges[i].source == nodes[i].id && edges[i].target == nodes[i + 1].id && edges[i].order == i + 1)
  {
  }

  /** The stages are s1-s4, keyed by the runtime stages in order. */
  lemma StagesInOrder()
    ensures |Stages| == 4
    ensures forall i :: 0 <= i < 4 ==> Stages[i].id == "s" + NatToString(i + 1) && Stages[i].runtimeStage == RuntimeKeys[i]
  {
    forall i | 0 <= i < 4
      ensures Stages[i].id == "s" + NatToString(i + 1)
    {
      assert NatToString(i + 1) == [DigitChar(i + 1)];
    }
  }

  /** Each node's lane counts the earlier nodes of its stage, from 0. */
  lemma DagLanes(methodId: string, snapshot: Option<Snapshot>)
    ensures LanesCount(DagSpec(methodId, snapshot).nodes)
  {
    var loaded := if snapshot.Some? then snapshot.value else EmptySnapshot;
    SlotsLanes(BlueprintFor(methodId, loaded), 4);
  }

  /** Every blueprint has two lines per stage, so every DAG has 8 nodes and 7 edges. */
  lemma DagSize(methodId: string, snapshot: Option<Snapshot>)
    ensures |DagSpec(methodId, snapshot).nodes| == 8 && |DagSpec(methodId, snapshot).edges| == 7
  {
    var loaded := if snapshot.Some? then snapshot.value else EmptySnapshot;
    var bp := BlueprintFor(methodId, loaded);
    assert |SlotsUpTo(bp, 1)| == 2;
    assert |SlotsUpTo(bp, 2)| == 4;
    assert |SlotsUpTo(bp, 3)| == 6;
    assert |SlotsUpTo(bp, 4)| == 8;
  }

  // ================================================================ readiness

  /** `_load_yaml_counts` then the status: ready iff the file has instances and classes;
      a missing file counts zero of each. */
  function TestStatus(payload: Option<Payload>): (r: string)
    ensures r == "ready" <==> payload.Some? && |payload.value.instances| > 0 && payload.value.classCount > 0
    ensures r != "ready" ==> r == "missing"
  {
    var classes := if payload.None? then 0 else payload.value.classCount;
    var instances := if payload.None? then 0 else |payload.value.instances|;
    if instances > 0 && classes > 0 then "ready" else "missing"
  }

  /** Python's `all()`. */
  function AllTrue(bs: seq<bool>): (r: bool)
    ensures r <==> forall i :: 0 <= i < |bs| ==> bs[i]
  {
    if bs == [] then true else bs[0] && AllTrue(bs[1..])
  }

  /** `bool(os.getenv(key))`: set and not empty. */
  function EnvReady(value: Option<string>): bool { value.Some? && value.value != "" }

  function EnvFlags(values: seq<Option<string>>): (r: seq<bool>)
    ensures |r| == |values| && forall i :: 0 <= i < |values| ==> r[i] == EnvReady(values[i])
  {
    seq(|values|, i requires 0 <= i < |values| => EnvReady(values[i]))
  }

  /** `overall_ready`: the ontology file exists, every dependency imports, and every
      environment key is set to something non-empty. */
  function SetupReady(ontologyExists: bool, deps: seq<bool>, env: seq<Option<string>>): (r: bool)
    ensures r <==> ontologyExists && (forall i :: 0 <= i < |deps| ==> deps[i])
                   && (forall i :: 0 <= i < |env| ==> env[i].Some? && env[i].value != "")
  {
    ontologyExists && AllTrue(deps) && AllTrue(EnvFlags(env))
  }
}
