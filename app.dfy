/**
  The request pipeline of src/ontology_llm/app.py up to the model call: method-id
  normalisation, stage-event payloads, the method dispatcher with the lookup limit, context
  compression, the price hint, the system and user prompts, and the result of a tool call.
 */
module App {
  import opened Wrappers
  import opened Text
  import opened Seqs
  import opened Ontology
  import opened SqlLookup
  import opened Strategies
  import opened MethodTools
  import opened Dispatch
  import opened PromptTools
  import opened Compression

  // ================================================================ method ids

  /** app.py keeps its own copy of the ids, as a set. */
  const AppMethodIds: set<string> :=
    {"method1", "method2", "method3", "method4", "method5", "method6", "method7", "method8"}

  /** `_normalize_method_id`: `None` and "" give "method1"; otherwise the trimmed,
      lower-cased id when it is known, else "method1". */
  function AppNormalizeMethodId(methodId: Option<string>): (r: string)
    ensures r in AppMethodIds
    ensures r != "method1" ==> methodId.Some? && Lower(Strip(methodId.value)) == r
  {
    if methodId.None? || methodId.value == "" then "method1"
    else
      var normalized := Lower(Strip(methodId.value));
      if normalized in AppMethodIds then normalized else "method1"
  }

  /** The two id sets hold the same eight ids. */
  lemma AppMethodIdsSame(m: string)
    ensures m in AppMethodIds <==> m in MethodIds
  {
  }

  /** app.py's normaliser and method_tools.py's agree on every input. */
  lemma AppNormalizeAgrees(methodId: Option<string>)
    ensures AppNormalizeMethodId(methodId) == NormalizeMethodId(methodId)
  {
    if methodId.Some? && methodId.value != "" {
      AppMethodIdsSame(Lower(Strip(methodId.value)));
    }
  }

  // ================================================================ stage events

  /** A JSON-like value carried in an event. */
  datatype Value =
    | Str(s: string)
    | Num(n: int)
    | Flag(b: bool)
    | Obj(fields: map<string, Value>)
    | List(items: seq<Value>)

  /** `if meta:` — a dict is truthy when it has an entry. */
  predicate MetaTruthy(meta: Option<map<string, Value>>) {
    meta.Some? && |meta.value| > 0
  }

  /** The payload `_emit_event` builds: the four fixed fields, then `meta` when truthy,
      `input` and `output` when given. */
  function EventPayload(stage: string, status: string, message: string,
                        input: Option<Value>, output: Option<Value>, meta: Option<map<string, Value>>)
    : map<string, Value>
  {
    var fixed := map["event" := Str("stage"), "stage" := Str(stage), "status" := Str(status),
                     "message" := Str(message)];
    var withMeta := if MetaTruthy(meta) then fixed["meta" := Obj(meta.value)] else fixed;
    var withInput := if input.Some? then withMeta["input" := input.value] else withMeta;
    if output.Some? then withInput["output" := output.value] else withInput
  }

  /** `_emit_event`: nothing without a listener, otherwise the payload. */
  method EmitEvent(hasListener: bool, stage: string, status: string, message: string,
                   input: Option<Value>, output: Option<Value>, meta: Option<map<string, Value>>)
    returns (emitted: Option<map<string, Value>>)
    ensures emitted.None? <==> !hasListener
    ensures emitted.Some? ==> emitted.value == EventPayload(stage, status, message, input, output, meta)
  {
    if !hasListener {
      return None;
    }
    var payload: map<string, Value> :=
      map["event" := Str("stage"), "stage" := Str(stage), "status" := Str(status), "message" := Str(message)];
    if MetaTruthy(meta) {
      payload := payload["meta" := Obj(meta.value)];
    }
    if input.Some? {
      payload := payload["input" := input.value];
    }
    if output.Some? {
      payload := payload["output" := output.value];
    }
    return Some(payload);
  }

  /** The payload has the four fixed keys, `meta` exactly when it is truthy, and `input`
      and `output` exactly when they are given. */
  lemma EventPayloadKeys(stage: string, status: string, message: string,
                         input: Option<Value>, output: Option<Value>, meta: Option<map<string, Value>>)
    ensures EventPayload(stage, status, message, input, output, meta).Keys
         == {"event", "stage", "status", "message"}
            + (if MetaTruthy(meta) then {"meta"} else {})
            + (if input.Some? then {"input"} else {})
            + (if output.Some? then {"output"} else {})
  {
  }

  /** Each key holds what it was given: the event kind, the three strings, and `meta`,
      `input` and `output` unchanged. */
  lemma EventPayloadValues(stage: string, status: string, message: string,
                           input: Option<Value>, output: Option<Value>, meta: Option<map<string, Value>>)
    ensures var p := EventPayload(stage, status, message, input, output, meta);
      && "event" in p && p["event"] == Str("stage")
      && "stage" in p && p["stage"] == Str(stage)
      && "status" in p && p["status"] == Str(status)
      && "message" in p && p["message"] == Str(message)
      && ("meta" in p ==> p["meta"] == Obj(meta.value))
      && ("input" in p ==> p["input"] == input.value)
      && ("output" in p ==> p["output"] == output.value)
  {
  }

  // ================================================================ lookup

  /** `max(max_facts * 3, max_facts)`: the number of rows the strategies may look at. */
  function LookupLimit(maxFacts: int): (r: int)
    ensures r >= maxFacts
    ensures maxFacts >= 0 ==> r == 3 * maxFacts
    ensures maxFacts < 0 ==> r == maxFacts
  {
    Max(maxFacts * 3, maxFacts)
  }

  /** `_lookup_by_method` as intended: the sql_tools dispatcher, except that an unknown id
      records no `retrieval_type`. */
  method AppLookupByMethod(store: Store, question: string, methodId: string, limit: int)
    returns (r: MethodResult)
    ensures r == ByMethodSpec(store, question, methodId, limit, None)
  {
    r := LookupByMethod(store, question, methodId, limit, None);
  }

  /** On the eight known ids app.py's dispatcher and sql_tools.py's return the same thing. */
  lemma AppDispatchAgrees(store: Store, question: string, methodId: string, limit: int)
    requires methodId in MethodIds
    ensures ByMethodSpec(store, question, methodId, limit, None)
         == ByMethodSpec(store, question, methodId, limit, Some(DefaultLexical))
  {
    StrategyOfKnown(methodId);
    FallbackOnlyForUnknown(store, question, methodId, limit, None, Some(DefaultLexical),
                           LookupContextSpec(store, question, limit), LookupDebugSpec(store, question, limit));
  }

  /** An unknown id gets the lexical context and a trace holding only the id. */
  lemma AppUnknownIdTrace(store: Store, question: string, methodId: string, limit: int)
    requires methodId !in MethodIds
    ensures var r := ByMethodSpec(store, question, methodId, limit, None);
      r.context == LookupContextSpec(store, question, limit) && r.trace == Trace(methodId, None, None)
  {
    StrategyOfKnown(methodId);
  }

  // ================================================================ names as written

  /** The outcome of running a piece of app.py: a value, or a `NameError` on the first
      name it uses that the module never binds. */
  datatype Outcome<T> = Returned(value: T) | NameError(name: string)

  /** The names app.py binds at module level: its imports (app.py:3-30) and its own
      definitions. */
  const AppBoundNames: set<string> := {
    "annotations", "argparse", "json", "logging", "os", "Path", "Any", "Callable", "load_dotenv",
    "build_client", "try_attach_memori", "build_system_prompt", "normalize_method_id",
    "TOKEN_WARN_THRESHOLD_DEFAULT", "compress_ontology_context", "estimate_prompt_budget",
    "get_env_int", "get_memori_embedding_model", "get_prompt_budget_mode", "log_prompt_budget",
    "extract_priority_price_fact", "get_db", "ingest_ontology_yaml", "init_schema",
    "is_price_question", "lookup_ontology_context_by_method",
    "_emit_event", "METHOD_IDS", "METHOD_SYSTEM_PROMPTS", "_normalize_method_id",
    "_constraint_facts", "_relation_evidence", "_multihop_paths", "_dense_proxy_context",
    "_enrichment_targets", "_lookup_by_method", "run_chat_trace", "run_chat", "main"}

  /** Evaluating a call to `name` whose value would be `v`. */
  function CallName<T>(name: string, v: T): Outcome<T> {
    if name in AppBoundNames then Returned(v) else NameError(name)
  }

  /** `_lookup_by_method` as written: its first statement calls `lookup_ontology_context`,
      then `lookup_ontology_debug`, neither of which app.py imports. */
  function AppLookupByMethodAsWritten(store: Store, question: string, methodId: string, limit: int)
    : Outcome<MethodResult>
  {
    match CallName("lookup_ontology_context", LookupContextSpec(store, question, limit))
    case NameError(n) => NameError(n)
    case Returned(_) =>
      match CallName("lookup_ontology_debug", LookupDebugSpec(store, question, limit))
      case NameError(n) => NameError(n)
      case Returned(_) => Returned(ByMethodSpec(store, question, methodId, limit, None))
  }

  /** Every call of the as-written dispatcher fails before it looks anything up, while the
      intended one returns the lexical context for method1. */
  lemma LookupAsWrittenFails(store: Store, question: string, methodId: string, limit: int)
    ensures AppLookupByMethodAsWritten(store, question, methodId, limit) == NameError("lookup_ontology_context")
    ensures ByMethodSpec(store, question, "method1", limit, None).context == LookupContextSpec(store, question, limit)
  {
    assert "lookup_ontology_context" !in AppBoundNames;
  }

  /** `_dense_proxy_context` as written: its first statement calls `extract_query_terms`,
      which app.py does not import. */
  function AppDenseProxyAsWritten(store: Store, question: string, limit: int): Outcome<string>
  {
    match CallName("extract_query_terms", DenseTokens(question))
    case NameError(n) => NameError(n)
    case Returned(_) => Returned(DenseText(DenseTop(store, question, limit)))
  }

  lemma DenseProxyAsWrittenFails(store: Store, question: string, limit: int)
    ensures AppDenseProxyAsWritten(store, question, limit) == NameError("extract_query_terms")
  {
    assert "extract_query_terms" !in AppBoundNames;
  }

  // ================================================================ prompts

  /** The system prompt app.py sends: the table entry for the id, or the method1 entry;
      unlike `build_system_prompt` it carries no global guard. */
  function AppSystemPrompt(methodId: string): (r: string)
    ensures methodId !in MethodSystemPrompts ==> r == MethodSystemPrompts[DefaultMethodId]
  {
    if methodId in MethodSystemPrompts then MethodSystemPrompts[methodId]
    else MethodSystemPrompts[DefaultMethodId]
  }

  /** It is the method prompt of method_tools.py, and `build_system_prompt` is it followed by
      the guard. */
  lemma AppSystemPromptUnguarded(methodId: string)
    ensures AppSystemPrompt(methodId) == GetMethodSystemPrompt(methodId)
    ensures BuildSystemPrompt(methodId) == AppSystemPrompt(methodId) + "\n\n" + GlobalSystemGuard
    ensures AppSystemPrompt(methodId) != BuildSystemPrompt(methodId)
  {
    assert |BuildSystemPrompt(methodId)| > |AppSystemPrompt(methodId)|;
  }

  /** `if price_hint:` — a hint is used when present and non-empty. */
  predicate HintTruthy(hint: Option<string>) { hint.Some? && hint.value != "" }

  /** The `prompt_parts` list: the method, the priority fact when there is one, the
      compressed facts and the question, each under its bracketed heading. */
  function PromptParts(methodId: string, hint: Option<string>, context: string, question: string): seq<string> {
    ["[Method]\n" + methodId]
    + (if HintTruthy(hint) then ["[Priority fact]\n" + hint.value] else [])
    + ["[Ontology facts]\n" + context, "[User question]\n" + question]
  }

  /** The user prompt: the parts separated by blank lines. */
  function UserPrompt(methodId: string, hint: Option<string>, context: string, question: string): string {
    Join(PromptParts(methodId, hint, context, question), "\n\n")
  }

  /** `run_chat_trace` appends the parts one by one and joins them. */
  method BuildUserPrompt(methodId: string, hint: Option<string>, context: string, question: string)
    returns (prompt: string)
    ensures prompt == UserPrompt(methodId, hint, context, question)
  {
    var parts: seq<string> := ["[Method]\n" + methodId];
    if HintTruthy(hint) {
      parts := parts + ["[Priority fact]\n" + hint.value];
    }
    parts := parts + ["[Ontology facts]\n" + context];
    parts := parts + ["[User question]\n" + question];
    assert parts == PromptParts(methodId, hint, context, question);
    prompt := Join(parts, "\n\n");
  }

  /** The prompt opens with the method and closes with the question after a blank line. */
  lemma UserPromptFrame(methodId: string, hint: Option<string>, context: string, question: string)
    ensures StartsWith(UserPrompt(methodId, hint, context, question), "[Method]\n" + methodId)
    ensures EndsWith(UserPrompt(methodId, hint, context, question), "\n\n[User question]\n" + question)
  {
    PromptStartsWithMethod(methodId, hint, context, question);
    PromptEndsWithQuestion(methodId, hint, context, question);
  }

  lemma PromptStartsWithMethod(methodId: string, hint: Option<string>, context: string, question: string)
    ensures StartsWith(UserPrompt(methodId, hint, context, question), "[Method]\n" + methodId)
  {
    JoinStartsWith(PromptParts(methodId, hint, context, question), "\n\n");
  }

  lemma PromptEndsWithQuestion(methodId: string, hint: Option<string>, context: string, question: string)
    ensures EndsWith(UserPrompt(methodId, hint, context, question), "\n\n[User question]\n" + question)
  {
    var parts := PromptParts(methodId, hint, context, question);
    JoinEndsWith(parts, "\n\n");
    assert "\n\n" + parts[|parts| - 1] == "\n\n[User question]\n" + question;
  }

  /** The prompt holds the priority fact, second, exactly when the hint is truthy; an empty
      hint gives the same prompt as none. */
  lemma UserPromptHint(methodId: string, hint: Option<string>, context: string, question: string)
    ensures |PromptParts(methodId, hint, context, question)| == (if HintTruthy(hint) then 4 else 3)
    ensures HintTruthy(hint) ==> PromptParts(methodId, hint, context, question)[1] == "[Priority fact]\n" + hint.value
    ensures !HintTruthy(hint) ==> UserPrompt(methodId, hint, context, question) == UserPrompt(methodId, None, context, question)
  {
  }

  // ================================================================ tool calls

  /** The JSON a tool call is answered with. */
  datatype ToolReply = Today(today: string) | ToolError(error: string)

  const TodayTool: string := "get_today_date"

  /** The tool result as intended: today's date (given as a parameter) for
      `get_today_date`, an error naming any other function; no name raises. */
  function ToolResult(name: string, today: string): (r: ToolReply)
    ensures r.Today? <==> name == TodayTool
    ensures r.Today? ==> r.today == today
    ensures r.ToolError? ==> r.error == "Unknown function: " + name
  {
    if name == TodayTool then Today(today) else ToolError("Unknown function: " + name)
  }

  /** The tool result as written: the `get_today_date` branch calls `date.today()`, and
      app.py does not import `date`. */
  function ToolResultAsWritten(name: string, today: string): Outcome<ToolReply> {
    if name == TodayTool then
      match CallName("date", Today(today))
      case NameError(n) => NameError(n)
      case Returned(v) => Returned(v)
    else Returned(ToolError("Unknown function: " + name))
  }

  /** The one tool the model is offered fails as written; any other name gets the same
      error reply in both versions. */
  lemma ToolAsWrittenFails(name: string, today: string)
    ensures ToolResultAsWritten(TodayTool, today) == NameError("date")
    ensures ToolResult(TodayTool, today) == Today(today)
    ensures name != TodayTool ==> ToolResultAsWritten(name, today) == Returned(ToolResult(name, today))
  {
    assert "date" !in AppBoundNames;
  }

  // ================================================================ one turn

  /** The settings read from the environment, with their defaults and minimums. */
  datatype Settings = Settings(maxFacts: int, maxRelations: int, maxContextChars: int, budgetMode: string)

  function EnvValue(env: map<string, string>, name: string): Option<string> {
    if name in env then Some(env[name]) else None
  }

  /** MAX_ONTOLOGY_FACTS (5, at least 1), MAX_RELATIONS (3, at least 0), MAX_CONTEXT_CHARS
      (1200, at least 1) and PROMPT_BUDGET_MODE. */
  function SettingsFrom(env: map<string, string>): (s: Settings)
    ensures s.maxFacts >= 1 && s.maxRelations >= 0 && s.maxContextChars >= 1
    ensures s.budgetMode in BudgetModes
    ensures "MAX_ONTOLOGY_FACTS" !in env ==> s.maxFacts == 5
    ensures "MAX_CONTEXT_CHARS" !in env ==> s.maxContextChars == 1200
  {
    Settings(GetEnvInt(EnvValue(env, "MAX_ONTOLOGY_FACTS"), 5, 1),
             GetEnvInt(EnvValue(env, "MAX_RELATIONS"), 3, 0),
             GetEnvInt(EnvValue(env, "MAX_CONTEXT_CHARS"), 1200, 1),
             GetPromptBudgetMode(EnvValue(env, "PROMPT_BUDGET_MODE")))
  }

  /** What a turn sends to the model, before any answer comes back. */
  datatype Turn = Turn(methodId: string, context: string, priceHint: Option<string>,
                       systemPrompt: string, userPrompt: string)

  /** The price hint is looked up only for a price question. */
  function PriceHint(store: Store, question: string): Option<string> {
    if IsPriceQuestion(question) then PriorityPriceFact(store, question) else None
  }

  function TurnSpec(store: Store, env: map<string, string>, question: string, methodId: Option<string>): Turn {
    var selected := AppNormalizeMethodId(methodId);
    var q := Strip(question);
    var s := SettingsFrom(env);
    var raw := ByMethodSpec(store, q, selected, LookupLimit(s.maxFacts), None).context;
    var context := CompressSpec(q, raw, s.maxFacts, s.maxRelations, s.maxContextChars, s.budgetMode);
    var hint := PriceHint(store, q);
    Turn(selected, context, hint, AppSystemPrompt(selected), UserPrompt(selected, hint, context, q))
  }

  /** `run_chat_trace` up to the model call, with the lookup as intended. */
  method PrepareTurn(store: Store, env: map<string, string>, question: string, methodId: Option<string>)
    returns (turn: Turn)
    ensures turn == TurnSpec(store, env, question, methodId)
  {
    var selected := AppNormalizeMethodId(methodId);
    var q := Strip(question);
    var s := SettingsFrom(env);
    var lookup := AppLookupByMethod(store, q, selected, LookupLimit(s.maxFacts));
    var context := CompressOntologyContext(q, lookup.context, s.maxFacts, s.maxRelations, s.maxContextChars, s.budgetMode);
    var hint: Option<string> := None;
    if IsPriceQuestion(q) {
      hint := PriorityPriceFact(store, q);
    }
    var user := BuildUserPrompt(selected, hint, context, q);
    turn := Turn(selected, context, hint, AppSystemPrompt(selected), user);
  }

  /** A turn uses a known method, fits the context to the character budget (unless the
      lookup found nothing), offers a price hint only for a price question, and opens the
      user prompt with the method. */
  lemma TurnShape(store: Store, env: map<string, string>, question: string, methodId: Option<string>)
    ensures var t := TurnSpec(store, env, question, methodId);
      && t.methodId in MethodIds
      && (t.context == NoFactsSentinel || |t.context| <= SettingsFrom(env).maxContextChars)
      && (t.priceHint.Some? ==> IsPriceQuestion(Strip(question)))
      && StartsWith(t.userPrompt, "[Method]\n" + t.methodId)
  {
    var t := TurnSpec(store, env, question, methodId);
    var q := Strip(question);
    var s := SettingsFrom(env);
    AppMethodIdsSame(t.methodId);
    var raw := ByMethodSpec(store, q, t.methodId, LookupLimit(s.maxFacts), None).context;
    if raw == NoFactsSentinel {
      CompressKeepsSentinel(q, raw, s.maxFacts, s.maxRelations, s.maxContextChars, s.budgetMode);
    } else {
      CompressWithinBudget(q, raw, s.maxFacts, s.maxRelations, s.maxContextChars, s.budgetMode);
    }
    UserPromptFrame(t.methodId, t.priceHint, t.context, q);
  }
}
