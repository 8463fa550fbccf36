/**
  Method-id normalisation and system-prompt lookup of
  src/ontology_llm/tools/method_tools.py.
 */
module MethodTools {

  import opened Wrappers
  import opened Text

  const MethodIds: seq<string> :=
    ["method1", "method2", "method3", "method4", "method5", "method6", "method7", "method8"]

  const DefaultMethodId: string := "method1"

  const MethodSystemPrompts: map<string, string> := map[
    "method1" := "You are an ontology-grounded assistant using lexical/entity-link retrieval. "
                 + "Answer from matched ontology facts first.",
    "method2" := "You are a policy-constrained ontology assistant. "
                 + "Always satisfy explicit Constraint/Rule facts before drafting an answer.",
    "method3" := "You are a graph-RAG assistant. "
                 + "Use both node facts and relation evidence and cite relation rationale briefly.",
    "method4" := "You are a KG reasoning agent. "
                 + "Prefer answers supported by explicit multi-hop relation paths.",
    "method5" := "You are an embedding-augmented ontology assistant. "
                 + "Use dense retrieval ranking and explain with top-ranked evidence.",
    "method6" := "You are a neuro-symbolic assistant. "
                 + "Generate naturally, but never violate symbolic constraints.",
    "method7" := "You are a verification-first assistant. "
                 + "Generate candidate answers internally and keep only evidence-validated output.",
    "method8" := "You are an ontology enrichment assistant. "
                 + "Answer safely from current facts and explicitly mark missing ontology properties."
  ]

  const GlobalSystemGuard: string :=
    "Use only the provided ontology facts as the primary evidence. "
    + "If evidence is insufficient, explicitly say that ontology evidence is insufficient."

  /** `normalize_method_id`: `None` and "" give the default; otherwise the trimmed,
      lower-cased id when it is one of the eight, else the default. */
  function NormalizeMethodId(methodId: Option<string>): (r: string)
    ensures r in MethodIds
  {
    if methodId.None? || methodId.value == "" then DefaultMethodId
    else
      var normalized := Lower(Strip(methodId.value));
      if normalized in MethodIds then normalized else DefaultMethodId
  }

  /** The eight ids are already trimmed and lower-case. */
  lemma MethodIdsCanonical(m: string)
    requires m in MethodIds
    ensures Strip(m) == m && Lower(m) == m && m != ""
  {
    assert m != [] && forall i :: 0 <= i < |m| ==> 'a' <= m[i] <= 'z' || '0' <= m[i] <= '9';
    LowerAlnumCanonical(m);
  }

  /** A non-empty run of lower-case letters and digits is trimmed and lower-case. */
  lemma LowerAlnumCanonical(m: string)
    requires m != [] && forall i :: 0 <= i < |m| ==> 'a' <= m[i] <= 'z' || '0' <= m[i] <= '9'
    ensures Strip(m) == m && Lower(m) == m
  {
    StripOfTrimmed(m);
    LowerOfLowered(m);
  }

  /** Normalising is idempotent, and a known id is its own normal form. */
  lemma NormalizeIdempotent(methodId: Option<string>)
    ensures NormalizeMethodId(Some(NormalizeMethodId(methodId))) == NormalizeMethodId(methodId)
  {
    MethodIdsCanonical(NormalizeMethodId(methodId));
  }

  /** The result is anything but the default only when the trimmed, lower-cased input
      names that method. */
  lemma NormalizeSound(methodId: Option<string>)
    ensures var r := NormalizeMethodId(methodId);
      r != DefaultMethodId ==> methodId.Some? && Lower(Strip(methodId.value)) == r
  {
  }

  /** Conversely, any input whose trimmed, lower-cased form is one of the eight ids
      selects that id: surrounding whitespace and upper case do not matter. */
  lemma NormalizeComplete(raw: string, m: string)
    requires m in MethodIds && Lower(Strip(raw)) == m
    ensures NormalizeMethodId(Some(raw)) == m
  {
    MethodIdsCanonical(m);
  }

  /** Upper case selects the same method. */
  lemma NormalizeUpperCase()
    ensures NormalizeMethodId(Some("METHOD3")) == "method3"
  {
    var up := "METHOD3";
    StripOfTrimmed(up);
    var l := Lower(up);
    assert l[0] == 'm' && l[1] == 'e' && l[2] == 't' && l[3] == 'h' && l[4] == 'o' && l[5] == 'd' && l[6] == '3';
    assert l == MethodIds[2];
  }

  /** An id outside the eight falls back to the default. */
  lemma NormalizeUnknown(raw: string)
    requires raw == "method9"
    ensures NormalizeMethodId(Some(raw)) == "method1"
  {
    LowerAlnumCanonical(raw);
    forall i | 0 <= i < |MethodIds|
      ensures MethodIds[i] != raw
    {
      assert MethodIds[i][6] != raw[6];
    }
  }

  /** `get_method_system_prompt`: the table entry, or the method1 prompt for an id not in it. */
  function GetMethodSystemPrompt(methodId: string): (r: string)
    ensures r in MethodSystemPrompts.Values
  {
    if methodId in MethodSystemPrompts then MethodSystemPrompts[methodId]
    else MethodSystemPrompts[DefaultMethodId]
  }

  /** The lengths of the eight prompts, all different. */
  lemma PromptLengths()
    ensures |MethodSystemPrompts["method1"]| == 117 && |MethodSystemPrompts["method2"]| == 121
    ensures |MethodSystemPrompts["method3"]| == 109 && |MethodSystemPrompts["method4"]| == 92
    ensures |MethodSystemPrompts["method5"]| == 116 && |MethodSystemPrompts["method6"]| == 95
    ensures |MethodSystemPrompts["method7"]| == 118 && |MethodSystemPrompts["method8"]| == 123
  {
  }

  /** The table has exactly the eight ids, each with its own prompt. */
  lemma PromptTableExact()
    ensures forall m :: m in MethodSystemPrompts <==> m in MethodIds
    ensures forall m1, m2 :: m1 in MethodIds && m2 in MethodIds && m1 != m2 ==>
      GetMethodSystemPrompt(m1) != GetMethodSystemPrompt(m2)
  {
    forall m1, m2 | m1 in MethodIds && m2 in MethodIds && m1 != m2
      ensures GetMethodSystemPrompt(m1) != GetMethodSystemPrompt(m2)
    {
      PromptsDiffer(m1, m2);
    }
  }

  /** Two known ids get prompts of different lengths. */
  lemma PromptsDiffer(m1: string, m2: string)
    requires m1 in MethodIds && m2 in MethodIds && m1 != m2
    ensures |GetMethodSystemPrompt(m1)| != |GetMethodSystemPrompt(m2)|
  {
    var i :| 0 <= i < |MethodIds| && MethodIds[i] == m1;
    var j :| 0 <= j < |MethodIds| && MethodIds[j] == m2;
    PromptLengthAt(i);
    PromptLengthAt(j);
    LengthsDistinct(i, j);
  }

  lemma LengthsDistinct(i: int, j: int)
    requires 0 <= i < |PromptLengthTable| && 0 <= j < |PromptLengthTable| && i != j
    ensures PromptLengthTable[i] != PromptLengthTable[j]
  {
  }

  /** The lengths of the prompts, in the order of the ids. */
  const PromptLengthTable: seq<int> := [117, 121, 109, 92, 116, 95, 118, 123]

  lemma PromptLengthAt(i: int)
    requires 0 <= i < |MethodIds|
    ensures |GetMethodSystemPrompt(MethodIds[i])| == PromptLengthTable[i]
  {
    PromptLengths();
  }

  /** Any id outside the table gets the method1 prompt. */
  lemma PromptFallback(methodId: string)
    requires methodId !in MethodIds
    ensures GetMethodSystemPrompt(methodId) == GetMethodSystemPrompt(DefaultMethodId)
  {
  }

  /** `build_system_prompt`: the method prompt, a blank line, then the guard. */
  function BuildSystemPrompt(methodId: string): (r: string)
    ensures StartsWith(r, GetMethodSystemPrompt(methodId))
    ensures EndsWith(r, GlobalSystemGuard)
    ensures |r| == |GetMethodSystemPrompt(methodId)| + 2 + |GlobalSystemGuard|
    ensures r[..|r| - |GlobalSystemGuard| - 2] == GetMethodSystemPrompt(methodId)
  {
    var p := GetMethodSystemPrompt(methodId);
    var r := p + "\n\n" + GlobalSystemGuard;
    assert r[..|p|] == p;
    assert r[|r| - |GlobalSystemGuard|..] == GlobalSystemGuard;
    r
  }

  /** Distinct known methods get distinct system prompts. */
  lemma BuildSystemPromptInjective(m1: string, m2: string)
    requires m1 in MethodIds && m2 in MethodIds && m1 != m2
    ensures BuildSystemPrompt(m1) != BuildSystemPrompt(m2)
  {
    PromptTableExact();
    var r1 := BuildSystemPrompt(m1);
    var r2 := BuildSystemPrompt(m2);
    assert GetMethodSystemPrompt(m1) != GetMethodSystemPrompt(m2);
  }
}
