/** `planning_agent.py`: when searching stops paying off, ask the language
    model for educated guesses and follow-up queries, and run at most two
    of those queries. */
module PlanningAgent {
  import opened Wrappers
  import opened JsonValue
  import BraceSpan
  import Text
  import opened SearchAgent

  /** The model call, given what `create_planning_prompt` is built from: brand,
      product, record, missing fields, search history and user context. */
  type PlanLlm = (string, string, Fields, seq<string>, seq<HistoryEntry>, Fields) -> Outcome<string>

  /** `json.loads`; `None` stands for the decode error. */
  type Decoder = string -> Option<Json>

  /** Why the `except` branch was taken: the model call raised with a message,
      or the suggested searches could not be sliced (a number, a boolean or a
      dict, whose exception text depends on the Python version). */
  datatype Fault = LlmFault(message: string) | NotSliceable

  /** One entry of `search_results`: `{"query", "result"}`. */
  datatype PlannedSearch = PlannedSearch(query: Json, result: string)

  /** The keys of `planning_result` the workflow reads. `searchResults` is
      the optional `search_results` key, `error` the optional `error` key. */
  datatype Plan = Plan(
    guesses: Json,
    suggested: Json,
    reasoning: Json,
    confidence: Json,
    searchResults: Option<seq<PlannedSearch>>,
    error: Option<Fault>)

  const DefaultPlan: Plan := Plan(JObj([]), JArr([]), JStr(""), JStr("low"), None, None)

  /** The `except` result. The source's error dict has no `reasoning` or
      `confidence` key; every reader falls back on "" and "low", which is
      what is stored here. */
  function ErrorPlan(f: Fault): Plan {
    DefaultPlan.(error := Some(f))
  }

  /** The plan after the inner `try`: defaults unless the first brace span
      decodes to a dict, whose keys then override them (`.get` on anything
      else raises and the inner `except` keeps the defaults). */
  function Parsed(decode: Decoder, response: string): Plan {
    match BraceSpan.Candidate(response)
    case None => DefaultPlan
    case Some(t) =>
      match decode(t)
      case None => DefaultPlan
      case Some(j) =>
        if !j.JObj? then DefaultPlan
        else Plan(GetOr(j.members, "educated_guesses", JObj([])),
                  GetOr(j.members, "suggested_searches", JArr([])),
                  GetOr(j.members, "reasoning", JStr("")),
                  GetOr(j.members, "confidence", JStr("low")),
                  None, None)
  }

  /** The elements `for query in x[:2]` visits; `None` when slicing raises. */
  function FirstTwo(x: Json): (r: Option<seq<Json>>)
    ensures r.Some? <==> x.JArr? || x.JStr? || !Truthy(x)
    ensures r.Some? ==> |r.value| <= 2
    ensures r.Some? && Truthy(x) ==> |r.value| > 0
    ensures x.JArr? ==> r == Some(x.items[..if |x.items| < 2 then |x.items| else 2])
  {
    match x
    case JArr(items) => Some(items[..if |items| < 2 then |items| else 2])
    case JStr(s) => Some(CharStrings(Text.Prefix(s, 2)))
    case _ => if Truthy(x) then None else Some([])
  }

  /** `search_results`: one entry per query, each the digest of
      `search_general(query, num_results=2)`. */
  function Searches(web: Web, qs: seq<Json>): (rs: seq<PlannedSearch>)
    ensures |rs| == |qs|
  {
    seq(|qs|, i requires 0 <= i < |qs| => PlannedSearch(qs[i], Digest(web, SearchGeneral(web, qs[i], 2))))
  }

  /** `plan_next_steps`. */
  function PlanNextSteps(llm: PlanLlm, decode: Decoder, web: Web, brand: string, product: string,
                         carbon: Fields, missing: seq<string>, history: seq<HistoryEntry>,
                         context: Fields, execute: bool): Plan
  {
    match llm(brand, product, carbon, missing, history, context)
    case Threw(m) => ErrorPlan(LlmFault(m))
    case Returned(response) =>
      var plan := Parsed(decode, response);
      if execute && Truthy(plan.suggested) then
        match FirstTwo(plan.suggested)
        case None => ErrorPlan(NotSliceable)
        case Some(qs) => plan.(searchResults := Some(Searches(web, qs)))
      else plan
  }

  method PlanNextStepsRun(llm: PlanLlm, decode: Decoder, web: Web, brand: string, product: string,
                          carbon: Fields, missing: seq<string>, history: seq<HistoryEntry>,
                          context: Fields, execute: bool)
    returns (plan: Plan)
    ensures plan == PlanNextSteps(llm, decode, web, brand, product, carbon, missing, history, context, execute)
  {
    var response;
    match llm(brand, product, carbon, missing, history, context) {
      case Threw(m) => return ErrorPlan(LlmFault(m));
      case Returned(r) => response := r;
    }
    plan := ParseRun(decode, response);
    if execute && Truthy(plan.suggested) {
      var queries := FirstTwo(plan.suggested);
      if queries.None? {
        return ErrorPlan(NotSliceable);
      }
      var results := SearchesRun(web, queries.value);
      plan := plan.(searchResults := Some(results));
    }
  }

  /** The plan read from the model's reply, or the default plan. */
  method ParseRun(decode: Decoder, response: string) returns (plan: Plan)
    ensures plan == Parsed(decode, response)
  {
    plan := DefaultPlan;
    var candidate := BraceSpan.Candidate(response);
    if candidate.Some? {
      var parsed := decode(candidate.value);
      if parsed.Some? && parsed.value.JObj? {
        var ms := parsed.value.members;
        plan := plan.(guesses := GetOr(ms, "educated_guesses", JObj([])),
                      suggested := GetOr(ms, "suggested_searches", JArr([])),
                      reasoning := GetOr(ms, "reasoning", JStr("")),
                      confidence := GetOr(ms, "confidence", JStr("low")));
      }
    }
  }

  /** The loop over the (at most two) queries, one search each. */
  method SearchesRun(web: Web, qs: seq<Json>) returns (results: seq<PlannedSearch>)
    ensures results == Searches(web, qs)
  {
    results := [];
    for i := 0 to |qs|
      invariant |results| == i
      invariant forall k :: 0 <= k < i ==> results[k] == Searches(web, qs)[k]
    {
      var data := SearchCarbonInfoRun(web, qs[i], 2);
      var text := FormatSearchResult(web, data);
      results := results + [PlannedSearch(qs[i], text)];
    }
  }

  // ---------------------------------------------------------------------
  // Properties
  // ---------------------------------------------------------------------

  /** At most two follow-up searches run, in order: the first two suggested
      queries of a list (or characters of a string), each searched with two
      results; the `search_results` key is present exactly when searches were
      requested, the model answered, and its suggestions are a non-empty list
      or string, and then it is non-empty. */
  lemma PlannedSearchesShape(llm: PlanLlm, decode: Decoder, web: Web, brand: string, product: string,
                             carbon: Fields, missing: seq<string>, history: seq<HistoryEntry>,
                             context: Fields, execute: bool)
    ensures var plan := PlanNextSteps(llm, decode, web, brand, product, carbon, missing, history, context, execute);
      var answer := llm(brand, product, carbon, missing, history, context);
      && (plan.searchResults.Some? <==>
            && execute && answer.Returned?
            && Truthy(Parsed(decode, answer.value).suggested)
            && (Parsed(decode, answer.value).suggested.JArr? || Parsed(decode, answer.value).suggested.JStr?))
      && (plan.searchResults.Some? ==>
            var qs := FirstTwo(Parsed(decode, answer.value).suggested).value;
            && 0 < |plan.searchResults.value| == |qs| <= 2
            && forall k :: 0 <= k < |qs| ==>
                 plan.searchResults.value[k] == PlannedSearch(qs[k], Digest(web, SearchCarbonInfo(web, qs[k], 2))))
  {
  }

  /** When the response has no brace span or the span does not decode, the
      plan is all defaults: no guesses, no suggestions, empty reasoning, low
      confidence, no searches. */
  lemma DefaultsWhenUnparsed(llm: PlanLlm, decode: Decoder, web: Web, brand: string, product: string,
                             carbon: Fields, missing: seq<string>, history: seq<HistoryEntry>,
                             context: Fields, execute: bool)
    requires llm(brand, product, carbon, missing, history, context).Returned?
    requires var response := llm(brand, product, carbon, missing, history, context).value;
             || BraceSpan.Candidate(response).None?
             || decode(BraceSpan.Candidate(response).value).None?
    ensures PlanNextSteps(llm, decode, web, brand, product, carbon, missing, history, context, execute)
         == Plan(JObj([]), JArr([]), JStr(""), JStr("low"), None, None)
  {
  }

  /** The `except` result: no guesses, no suggestions, an error; it arises
      exactly when the model call raises or the suggestions are a truthy
      value that is neither a list nor a string. */
  lemma ErrorResult(llm: PlanLlm, decode: Decoder, web: Web, brand: string, product: string,
                    carbon: Fields, missing: seq<string>, history: seq<HistoryEntry>,
                    context: Fields, execute: bool)
    ensures var plan := PlanNextSteps(llm, decode, web, brand, product, carbon, missing, history, context, execute);
      var answer := llm(brand, product, carbon, missing, history, context);
      && (plan.error.Some? ==> plan.guesses == JObj([]) && plan.suggested == JArr([]) && plan.searchResults.None?)
      && (answer.Threw? ==> plan.error == Some(LlmFault(answer.message)))
      && (plan.error == Some(NotSliceable) <==>
            && execute && answer.Returned?
            && var s := Parsed(decode, answer.value).suggested;
            Truthy(s) && !s.JArr? && !s.JStr?)
  {
  }

  // ---------------------------------------------------------------------
  // Educated guesses are never dicts
  // ---------------------------------------------------------------------

  /** The number of dicts inside a value, itself included. */
  function ObjectCount(j: Json): nat
    decreases j
  {
    match j
    case JObj(ms) => 1 + MemberObjects(ms)
    case JArr(items) => ItemObjects(items)
    case _ => 0
  }

  function MemberObjects(ms: seq<Member>): nat
    decreases ms
  {
    if ms == [] then 0 else ObjectCount(ms[0].value) + MemberObjects(ms[1..])
  }

  function ItemObjects(items: seq<Json>): nat
    decreases items
  {
    if items == [] then 0 else ObjectCount(items[0]) + ItemObjects(items[1..])
  }

  /** What every JSON decoder satisfies: each dict in the decoded value is
      closed by a `}` of its own in the text. */
  ghost predicate BracesCloseObjects(decode: Decoder) {
    forall t :: decode(t).Some? ==> ObjectCount(decode(t).value) <= BraceSpan.CountChar(t, '}')
  }

  lemma {:induction false} NoObjectUnderKey(ms: seq<Member>, k: string)
    requires MemberObjects(ms) == 0 && HasKey(ms, k)
    ensures !Get(ms, k).value.JObj?
    decreases ms
  {
    if ms[0].key != k {
      NoObjectUnderKey(ms[1..], k);
    }
  }

  /** The span holds one `}`, so a decoded dict has no dict inside it, and
      `educated_guesses` is `{}` or not a dict at all: the planning node then
      either merges no guess or raises at `.items()`. */
  lemma GuessesNeverObjects(llm: PlanLlm, decode: Decoder, web: Web, brand: string, product: string,
                            carbon: Fields, missing: seq<string>, history: seq<HistoryEntry>,
                            context: Fields, execute: bool)
    requires BracesCloseObjects(decode)
    ensures var g := PlanNextSteps(llm, decode, web, brand, product, carbon, missing, history, context, execute).guesses;
      g == JObj([]) || !g.JObj?
  {
    var answer := llm(brand, product, carbon, missing, history, context);
    if answer.Returned? {
      var response := answer.value;
      var c := BraceSpan.Candidate(response);
      if c.Some? && decode(c.value).Some? && decode(c.value).value.JObj? {
        var ms := decode(c.value).value.members;
        BraceSpan.CandidateHasOneClose(response);
        assert ObjectCount(decode(c.value).value) <= 1;
        if HasKey(ms, "educated_guesses") {
          NoObjectUnderKey(ms, "educated_guesses");
        }
      }
    }
  }
}
