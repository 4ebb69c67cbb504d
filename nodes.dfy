/** `nodes.py`: the workflow state, the effect of each graph node on it, and
    the routing decision taken after the language-model node. The language
    model, the search and the decoder are parameters (`Env`). */
module Nodes {
  import opened Wrappers
  import opened JsonValue
  import Text
  import CarbonState
  import CarbonUpdate
  import opened SearchAgent
  import DataExtractor
  import PlanningAgent

  /** A tool call of an AI message: `{"name", "args", "id"}`. */
  datatype ToolCall = ToolCall(name: string, args: Fields, id: string)

  /** Human, AI and tool messages; only AI messages carry tool calls. */
  datatype Message =
    | Human(content: string)
    | Ai(content: string, toolCalls: seq<ToolCall>)
    | ToolReply(content: string, name: string, callId: string)

  /** `CarbonWorkflowState`. `plan` holds the `planning_result` the planning
      node returns; `CarbonWorkflowState` has no such channel, so the real
      state drops it. It is kept here only so the node's result can be
      stated, and nothing downstream reads it. */
  datatype WState = WState(
    messages: seq<Message>,
    brand: string,
    product: string,
    carbon: Fields,
    history: seq<HistoryEntry>,
    searchCount: int,
    maxSearches: int,
    completeness: int,
    estimated: Fields,
    context: Fields,
    plan: Option<PlanningAgent.Plan>)

  /** The foreign calls the nodes make. `chat` is `model.invoke` on the
      system prompt and the messages, answering with content and tool calls;
      `estimate` is `call_llm` on the estimation prompt for one field. */
  datatype Env = Env(
    chat: WState -> Outcome<(string, seq<ToolCall>)>,
    estimate: (string, string, string, Fields) -> Outcome<string>,
    extract: DataExtractor.ExtractLlm,
    plan: PlanningAgent.PlanLlm,
    decode: string -> Option<Json>,
    web: Web)

  /** What no node changes: the product, the search budget and the user context. */
  predicate SameRun(a: WState, b: WState) {
    a.brand == b.brand && a.product == b.product && a.maxSearches == b.maxSearches && a.context == b.context
  }

  /** The completeness a state carries is the one the status of its record reports. */
  predicate Scored(s: WState) {
    CarbonState.CarbonDataStatus(s.carbon).Ok? && s.completeness == CarbonState.CarbonDataStatus(s.carbon).value.completeness
  }

  function Take<T>(s: seq<T>, n: nat): (r: seq<T>)
    ensures |r| == if |s| <= n then |s| else n
    ensures r == s[..|r|]
  {
    if |s| <= n then s else s[..n]
  }

  // ---------------------------------------------------------------------
  // estimate_missing_data
  // ---------------------------------------------------------------------

  const EstimateSource: string := "LLM estimation"
  const EstimateLimit: nat := 5

  /** An estimate is kept when, stripped, it is non-empty and not "UNKNOWN"
      in any letter case. */
  predicate Accepted(v: string) {
    v != "" && Text.Upper(v) != "UNKNOWN"
  }

  /** One field: ask, strip, and if kept record it and write it with the
      estimation tag. An update that raises leaves the record as it was but
      the estimate recorded, since `estimated[field]` is assigned first. */
  function EstimateOne(env: Env, st: WState, field: string, carbon: Fields, est: Fields): (Fields, Fields) {
    match env.estimate(st.brand, st.product, field, carbon)
    case Threw(_) => (carbon, est)
    case Returned(response) => KeepEstimate(field, Text.Strip(response), carbon, est)
  }

  /** The stripped answer `v` for `field`, kept or not. */
  function KeepEstimate(field: string, v: string, carbon: Fields, est: Fields): (Fields, Fields) {
    if !Accepted(v) then (carbon, est)
    else
      var est' := Set(est, field, JStr(v));
      match CarbonUpdate.Update(carbon, field, JStr(v), EstimateSource)
      case Raised => (carbon, est')
      case Ok(c) => (c, est')
  }

  function EstimateFold(env: Env, st: WState, fields: seq<string>): (Fields, Fields)
    decreases |fields|
  {
    if fields == [] then (st.carbon, [])
    else
      var (c, e) := EstimateFold(env, st, fields[..|fields| - 1]);
      EstimateOne(env, st, fields[|fields| - 1], c, e)
  }

  /** The state after the estimate node. */
  function Estimate(env: Env, st: WState): (r: Result<WState>)
    ensures r.Ok? ==> SameRun(st, r.value) && r.value.searchCount == st.searchCount
  {
    var missing :- CarbonState.MissingFields(st.carbon);
    if missing == [] then Ok(st.(estimated := []))
    else
      var (c, e) := EstimateFold(env, st, Take(missing, EstimateLimit));
      SaveEstimates(st, c, e)
  }

  /** The estimate node's answer: the record is saved with its completeness. */
  function SaveEstimates(st: WState, c: Fields, e: Fields): (r: Result<WState>)
    ensures r.Ok? ==> SameRun(st, r.value) && r.value.searchCount == st.searchCount
  {
    var status :- CarbonState.CarbonDataStatus(c);
    Ok(st.(estimated := e, carbon := c, completeness := status.completeness))
  }

  method EstimateMissingData(env: Env, st: WState) returns (r: Result<WState>)
    ensures r == Estimate(env, st)
  {
    var missing := CarbonState.GetMissingFields(st.carbon);
    if missing.Raised? {
      return Raised;
    }
    if missing.value == [] {
      return Ok(st.(estimated := []));
    }
    var fields := Take(missing.value, EstimateLimit);
    var carbon, estimated := EstimateFoldRun(env, st, fields);
    var status := CarbonState.CarbonDataStatus(carbon);
    if status.Raised? {
      return Raised;
    }
    r := Ok(st.(estimated := estimated, carbon := carbon, completeness := status.value.completeness));
  }

  /** The loop over the fields to estimate. */
  method EstimateFoldRun(env: Env, st: WState, fields: seq<string>) returns (carbon: Fields, estimated: Fields)
    ensures (carbon, estimated) == EstimateFold(env, st, fields)
  {
    estimated := [];
    carbon := st.carbon;
    for i := 0 to |fields|
      invariant (carbon, estimated) == EstimateFold(env, st, fields[..i])
    {
      assert fields[..i + 1][..i] == fields[..i];
      carbon, estimated := EstimateOneRun(env, st, fields[i], carbon, estimated);
    }
    assert fields[..|fields|] == fields;
  }

  /** The body of that loop, for one field. */
  method EstimateOneRun(env: Env, st: WState, field: string, carbon0: Fields, est0: Fields)
    returns (carbon: Fields, estimated: Fields)
    ensures (carbon, estimated) == EstimateOne(env, st, field, carbon0, est0)
  {
    carbon, estimated := carbon0, est0;
    match env.estimate(st.brand, st.product, field, carbon) {
      case Threw(_) =>
      case Returned(response) =>
        var value := Text.Strip(response);
        if Accepted(value) {
          estimated := Set(estimated, field, JStr(value));
          var updated := CarbonUpdate.UpdateCarbonData(carbon, field, JStr(value), EstimateSource);
          if updated.Ok? {
            carbon := updated.value;
          }
        }
        assert (carbon, estimated) == KeepEstimate(field, value, carbon0, est0);
    }
  }

  /** With something missing the node saves a record whose completeness it
      carries; with nothing missing it keeps the record and its completeness. */
  lemma EstimateScored(env: Env, st: WState)
    requires Estimate(env, st).Ok?
    ensures CarbonState.MissingFields(st.carbon) != Ok([]) ==> Scored(Estimate(env, st).value)
    ensures CarbonState.MissingFields(st.carbon) == Ok([]) ==>
      Estimate(env, st).value.carbon == st.carbon && Estimate(env, st).value.completeness == st.completeness
  {
    var missing := CarbonState.MissingFields(st.carbon).value;
    if missing != [] {
      var (c, e) := EstimateFold(env, st, Take(missing, EstimateLimit));
      assert Estimate(env, st) == SaveEstimates(st, c, e);
    }
  }

  /** Only the first five missing fields are asked about: every recorded
      estimate is under one of them. */
  lemma {:induction false} EstimatesWithinFields(env: Env, st: WState, fields: seq<string>)
    ensures forall k :: HasKey(EstimateFold(env, st, fields).1, k) ==> k in fields
    decreases |fields|
  {
    if fields != [] {
      var init := fields[..|fields| - 1];
      EstimatesWithinFields(env, st, init);
      var (c, e) := EstimateFold(env, st, init);
      forall k | HasKey(EstimateFold(env, st, fields).1, k) ensures k in fields {
        if k != fields[|fields| - 1] {
          assert Get(EstimateFold(env, st, fields).1, k) == Get(e, k);
          assert k in init;
        }
      }
    }
  }

  /** One field's outcome: a raising call or a rejected answer changes
      nothing; a kept answer is recorded and, unless the write raises, read
      back at its path with the estimation tag beside a plain final key. */
  lemma EstimateOneOutcome(env: Env, st: WState, field: string, carbon: Fields, est: Fields)
    ensures var (c, e) := EstimateOne(env, st, field, carbon, est);
      var answer := env.estimate(st.brand, st.product, field, carbon);
      && (answer.Threw? || !Accepted(Text.Strip(answer.value)) ==> c == carbon && e == est)
      && (answer.Returned? && Accepted(Text.Strip(answer.value)) ==>
            var v := JStr(Text.Strip(answer.value));
            && Get(e, field) == Some(v)
            && (CarbonUpdate.Update(carbon, field, v, EstimateSource).Ok? ==>
                  c == CarbonUpdate.Update(carbon, field, v, EstimateSource).value)
            && ('.' !in field ==>
                  && Get(c, field) == Some(v)
                  && Get(c, CarbonUpdate.SourceKey(field))
                     == (if HasKey(carbon, CarbonUpdate.SourceKey(field)) then Get(carbon, CarbonUpdate.SourceKey(field))
                         else Some(JStr(EstimateSource)))))
  {
    var answer := env.estimate(st.brand, st.product, field, carbon);
    if answer.Returned? && Accepted(Text.Strip(answer.value)) && '.' !in field {
      CarbonUpdate.TopLevelWrite(carbon, field, JStr(Text.Strip(answer.value)), EstimateSource);
    }
  }

  /** An answer of "unknown" in any letter case, or of nothing, is rejected;
      a value is kept. */
  lemma UnknownRejected()
    ensures !Accepted("unknown") && !Accepted("Unknown") && !Accepted("")
    ensures Accepted("12 kg")
  {
    assert Text.Upper("unknown") == "UNKNOWN" by {
      var u := Text.Upper("unknown");
      assert u[0] == 'U' && u[1] == 'N' && u[2] == 'K' && u[3] == 'N' && u[4] == 'O' && u[5] == 'W' && u[6] == 'N';
    }
    assert Text.Upper("Unknown") == "UNKNOWN" by {
      var u := Text.Upper("Unknown");
      assert u[0] == 'U' && u[1] == 'N' && u[2] == 'K' && u[3] == 'N' && u[4] == 'O' && u[5] == 'W' && u[6] == 'N';
    }
    assert |Text.Upper("12 kg")| == 5;
  }

  /** With nothing missing the node records no estimate and keeps the record. */
  lemma EstimateNothingMissing(env: Env, st: WState)
    requires CarbonState.MissingFields(st.carbon) == Ok([])
    ensures Estimate(env, st) == Ok(st.(estimated := []))
  {
  }

  // ---------------------------------------------------------------------
  // call_model
  // ---------------------------------------------------------------------

  /** The language-model node appends the model's answer as an AI message.
      Its system prompt computes the record's missing fields and status
      first, outside any `try`, so a record whose status raises makes the
      node raise before the model is called. */
  function CallModel(env: Env, st: WState): (r: Result<WState>)
    ensures CarbonState.CarbonDataStatus(st.carbon).Raised? ==> r.Raised?
    ensures r.Ok? ==> SameRun(st, r.value) && r.value.searchCount == st.searchCount
    ensures r.Ok? ==> |r.value.messages| == |st.messages| + 1 && r.value.messages[..|st.messages|] == st.messages
    ensures r.Ok? ==> r.value.carbon == st.carbon && r.value.completeness == st.completeness
  {
    if CarbonState.CarbonDataStatus(st.carbon).Raised? then Raised
    else match env.chat(st)
    case Threw(_) => Raised
    case Returned((content, calls)) => Ok(st.(messages := st.messages + [Ai(content, calls)]))
  }

  /** The tool calls of the last message, or none when it is not an AI message. */
  function ToolCallsOf(m: Message): seq<ToolCall> {
    if m.Ai? then m.toolCalls else []
  }

  // ---------------------------------------------------------------------
  // call_tool
  // ---------------------------------------------------------------------

  const ToolResults: nat := 3

  datatype Progress = Progress(carbon: Fields, history: seq<HistoryEntry>, outputs: seq<Message>)

  /** One tool call: a call named "search" is searched with three results,
      digested, logged in the history, mined for data against `missing`, saved
      and answered with a tool message; any other call is ignored. Saving
      computes the record's status, which raises on a malformed record. */
  function SearchStep(env: Env, st: WState, missing: seq<string>, call: ToolCall, p: Progress): Result<Progress> {
    if call.name != "search" then Ok(p)
    else
      var q := GetOr(call.args, "query", JStr(""));
      var data := SearchCarbonInfo(env.web, q, ToolResults);
      var text := Digest(env.web, data);
      var ex := DataExtractor.Extract(env.extract, env.decode, text, missing, st.brand, st.product, p.carbon);
      if CarbonState.CarbonDataStatus(ex.updated).Raised? then Raised
      else Ok(Progress(ex.updated, p.history + [HistoryEntry(q, text, data)], p.outputs + [ToolReply(text, call.name, call.id)]))
  }

  function SearchFold(env: Env, st: WState, missing: seq<string>, calls: seq<ToolCall>): Result<Progress>
    decreases |calls|
  {
    if calls == [] then Ok(Progress(st.carbon, st.history, []))
    else
      var p :- SearchFold(env, st, missing, calls[..|calls| - 1]);
      SearchStep(env, st, missing, calls[|calls| - 1], p)
  }

  /** The state after the tools node. The missing list is computed once, on
      entry, and every extraction of the visit is made against it; the
      search count goes up by exactly one. */
  function CallTool(env: Env, st: WState): (r: Result<WState>)
    ensures r.Ok? ==> SameRun(st, r.value) && r.value.searchCount == st.searchCount + 1
  {
    var missing :- CarbonState.MissingFields(st.carbon);
    if st.messages == [] then Raised
    else
      var calls := ToolCallsOf(st.messages[|st.messages| - 1]);
      var p :- SearchFold(env, st, missing, calls);
      SaveSearches(st, p)
  }

  /** The tools node's answer after its searches: the record is saved, which
      raises on a malformed record, and the search count goes up by one. */
  function SaveSearches(st: WState, p: Progress): (r: Result<WState>)
    ensures r.Ok? ==> SameRun(st, r.value) && r.value.searchCount == st.searchCount + 1
  {
    var status :- CarbonState.CarbonDataStatus(p.carbon);
    Ok(st.(messages := st.messages + p.outputs, history := p.history, carbon := p.carbon,
           searchCount := st.searchCount + 1, completeness := status.completeness))
  }

  method SearchStepRun(env: Env, st: WState, missing: seq<string>, call: ToolCall, p: Progress) returns (r: Result<Progress>)
    ensures r == SearchStep(env, st, missing, call, p)
  {
    if call.name != "search" {
      return Ok(p);
    }
    var query := GetOr(call.args, "query", JStr(""));
    var data := SearchCarbonInfoRun(env.web, query, ToolResults);
    var text := FormatSearchResult(env.web, data);
    var history := p.history + [HistoryEntry(query, text, data)];
    var ex := DataExtractor.ExtractDataFromSearch(env.extract, env.decode, text, missing, st.brand, st.product, p.carbon);
    if CarbonState.CarbonDataStatus(ex.updated).Raised? {
      return Raised;
    }
    r := Ok(Progress(ex.updated, history, p.outputs + [ToolReply(text, call.name, call.id)]));
  }

  /** The loop over the tool calls of the last message. */
  method SearchFoldRun(env: Env, st: WState, missing: seq<string>, calls: seq<ToolCall>) returns (r: Result<Progress>)
    ensures r == SearchFold(env, st, missing, calls)
  {
    var carbon := st.carbon;
    var history := st.history;
    var outputs: seq<Message> := [];
    for i := 0 to |calls|
      invariant SearchFold(env, st, missing, calls[..i]) == Ok(Progress(carbon, history, outputs))
    {
      assert calls[..i + 1][..i] == calls[..i];
      var step := SearchStepRun(env, st, missing, calls[i], Progress(carbon, history, outputs));
      if step.Raised? {
        SearchFoldRaisesOnward(env, st, missing, calls, i + 1);
        return Raised;
      }
      carbon, history, outputs := step.value.carbon, step.value.history, step.value.outputs;
    }
    assert calls[..|calls|] == calls;
    r := Ok(Progress(carbon, history, outputs));
  }

  method CallToolRun(env: Env, st: WState) returns (r: Result<WState>)
    ensures r == CallTool(env, st)
  {
    var missing := CarbonState.GetMissingFields(st.carbon);
    if missing.Raised? || st.messages == [] {
      return Raised;
    }
    var calls := ToolCallsOf(st.messages[|st.messages| - 1]);
    var p := SearchFoldRun(env, st, missing.value, calls);
    r := SaveSearchesRun(st, p);
  }

  /** Saving the record after the searches, unless they raised. */
  method SaveSearchesRun(st: WState, searched: Result<Progress>) returns (r: Result<WState>)
    ensures r == (if searched.Raised? then Raised else SaveSearches(st, searched.value))
  {
    if searched.Raised? {
      return Raised;
    }
    var p := searched.value;
    var status := CarbonState.CarbonDataStatus(p.carbon);
    if status.Raised? {
      return Raised;
    }
    r := Ok(st.(messages := st.messages + p.outputs, history := p.history, carbon := p.carbon,
                searchCount := st.searchCount + 1, completeness := status.value.completeness));
  }

  /** The tools node carries the completeness of the record it saves. */
  lemma ToolsScored(env: Env, st: WState)
    requires CallTool(env, st).Ok?
    ensures Scored(CallTool(env, st).value)
  {
    var missing := CarbonState.MissingFields(st.carbon).value;
    var p := SearchFold(env, st, missing, ToolCallsOf(st.messages[|st.messages| - 1])).value;
    assert CallTool(env, st) == SaveSearches(st, p);
  }

  lemma {:induction false} SearchFoldRaisesOnward(env: Env, st: WState, missing: seq<string>, calls: seq<ToolCall>, k: nat)
    requires k <= |calls| && SearchFold(env, st, missing, calls[..k]).Raised?
    ensures SearchFold(env, st, missing, calls).Raised?
    decreases |calls| - k
  {
    if k < |calls| {
      assert calls[..k + 1][..k] == calls[..k];
      SearchFoldRaisesOnward(env, st, missing, calls, k + 1);
    } else {
      assert calls[..k] == calls;
    }
  }

  /** The calls named "search", in order. */
  function SearchCalls(calls: seq<ToolCall>): (r: seq<ToolCall>)
    ensures |r| <= |calls|
    ensures forall c :: c in r ==> c in calls && c.name == "search"
    decreases |calls|
  {
    if calls == [] then []
    else SearchCalls(calls[..|calls| - 1]) + (if calls[|calls| - 1].name == "search" then [calls[|calls| - 1]] else [])
  }

  /** Every search call, in order, adds one history entry for its query and
      one tool message answering its id; the old history is kept in front. */
  lemma {:induction false} SearchFoldShape(env: Env, st: WState, missing: seq<string>, calls: seq<ToolCall>)
    requires SearchFold(env, st, missing, calls).Ok?
    ensures var p := SearchFold(env, st, missing, calls).value;
      var sc := SearchCalls(calls);
      && |p.history| == |st.history| + |sc| && |p.outputs| == |sc|
      && p.history[..|st.history|] == st.history
      && forall k :: 0 <= k < |sc| ==>
           && p.history[|st.history| + k].query == GetOr(sc[k].args, "query", JStr(""))
           && p.outputs[k].ToolReply? && p.outputs[k].callId == sc[k].id
           && p.outputs[k].content == p.history[|st.history| + k].result
    decreases |calls|
  {
    if calls != [] {
      SearchFoldShape(env, st, missing, calls[..|calls| - 1]);
    }
  }

  /** A visit with no search call at all still counts as a search and leaves
      the record and the history as they were. */
  lemma NoSearchCallStillCounts(env: Env, st: WState)
    requires CarbonState.MissingFields(st.carbon).Ok? && CarbonState.CarbonDataStatus(st.carbon).Ok?
    requires st.messages != [] && SearchCalls(ToolCallsOf(st.messages[|st.messages| - 1])) == []
    ensures CallTool(env, st).Ok?
    ensures CallTool(env, st).value.searchCount == st.searchCount + 1
    ensures CallTool(env, st).value.carbon == st.carbon && CallTool(env, st).value.history == st.history
  {
    var calls := ToolCallsOf(st.messages[|st.messages| - 1]);
    NoSearchCallsFold(env, st, CarbonState.MissingFields(st.carbon).value, calls);
  }

  lemma {:induction false} NoSearchCallsFold(env: Env, st: WState, missing: seq<string>, calls: seq<ToolCall>)
    requires SearchCalls(calls) == []
    ensures SearchFold(env, st, missing, calls) == Ok(Progress(st.carbon, st.history, []))
    decreases |calls|
  {
    if calls != [] {
      NoSearchCallsFold(env, st, missing, calls[..|calls| - 1]);
    }
  }

  // ---------------------------------------------------------------------
  // call_planning_agent
  // ---------------------------------------------------------------------

  const GuessSource: string := "planning agent educated guess"

  /** Fold the guesses into the record with the guess tag, recording each in
      `estimated_data`. */
  function MergeGuesses(carbon: Fields, est: Fields, guesses: Fields): Result<(Fields, Fields)>
    decreases |guesses|
  {
    if guesses == [] then Ok((carbon, est))
    else
      var before :- MergeGuesses(carbon, est, guesses[..|guesses| - 1]);
      var g := guesses[|guesses| - 1];
      var c :- CarbonUpdate.Update(before.0, g.key, g.value, GuessSource);
      Ok((c, Set(before.1, g.key, g.value)))
  }

  /** The extraction from each planned search, in order, against the missing
      list computed before the guesses were merged. */
  function ApplyPlanned(env: Env, st: WState, missing: seq<string>, carbon: Fields, rs: seq<PlanningAgent.PlannedSearch>): Fields
    decreases |rs|
  {
    if rs == [] then carbon
    else
      var c := ApplyPlanned(env, st, missing, carbon, rs[..|rs| - 1]);
      DataExtractor.Extract(env.extract, env.decode, rs[|rs| - 1].result, missing, st.brand, st.product, c).updated
  }

  /** `reasoning[:200]` in the debug record succeeds on a string or a list only. */
  predicate Sliceable(j: Json) {
    j.JStr? || j.JArr?
  }

  /** The state after the planning node. A reasoning that cannot be sliced
      makes the debug record raise; guesses that are not a dict make
      `.items()` raise. */
  function CallPlanning(env: Env, st: WState): (r: Result<WState>)
    ensures r.Ok? ==> SameRun(st, r.value) && r.value.searchCount == st.searchCount
    ensures r.Ok? ==> r.value.history == st.history && r.value.messages == st.messages
  {
    var missing :- CarbonState.MissingFields(st.carbon);
    if missing == [] then Ok(st)
    else
      var plan := PlanningAgent.PlanNextSteps(env.plan, env.decode, env.web, st.brand, st.product, st.carbon,
                                              missing, st.history, st.context, true);
      if !Sliceable(plan.reasoning) || !plan.guesses.JObj? then Raised
      else
        var merged :- MergeGuesses(st.carbon, st.estimated, plan.guesses.members);
        SavePlanned(env, st, missing, plan, merged.0, merged.1)
  }

  /** The planning node's answer once the guesses are merged: the planned
      searches are mined, then the record is saved. Saving the record and
      then reading its status raise alike. */
  function SavePlanned(env: Env, st: WState, missing: seq<string>, plan: PlanningAgent.Plan,
                       merged: Fields, est: Fields): (r: Result<WState>)
    ensures r.Ok? ==> SameRun(st, r.value) && r.value.searchCount == st.searchCount
    ensures r.Ok? ==> r.value.history == st.history && r.value.messages == st.messages
  {
    var carbon :=
      if plan.searchResults.Some? && plan.searchResults.value != []
      then ApplyPlanned(env, st, missing, merged, plan.searchResults.value)
      else merged;
    var status :- CarbonState.CarbonDataStatus(carbon);
    Ok(st.(carbon := carbon, estimated := est, completeness := status.completeness, plan := Some(plan)))
  }

  method CallPlanningAgentRun(env: Env, st: WState) returns (r: Result<WState>)
    ensures r == CallPlanning(env, st)
  {
    var missing := CarbonState.GetMissingFields(st.carbon);
    if missing.Raised? {
      return Raised;
    }
    if missing.value == [] {
      return Ok(st);
    }
    var plan := PlanningAgent.PlanNextStepsRun(env.plan, env.decode, env.web, st.brand, st.product, st.carbon,
                                               missing.value, st.history, st.context, true);
    if !(plan.reasoning.JStr? || plan.reasoning.JArr?) || !plan.guesses.JObj? {
      return Raised;
    }
    var merged := MergeGuessesRun(st.carbon, st.estimated, plan.guesses.members);
    if merged.Raised? {
      return Raised;
    }
    r := SavePlannedRun(env, st, missing.value, plan, merged.value.0, merged.value.1);
  }

  /** The loop over the guesses. */
  method MergeGuessesRun(carbon0: Fields, est0: Fields, guesses: Fields) returns (r: Result<(Fields, Fields)>)
    ensures r == MergeGuesses(carbon0, est0, guesses)
  {
    var carbon := carbon0;
    var estimated := est0;
    for i := 0 to |guesses|
      invariant MergeGuesses(carbon0, est0, guesses[..i]) == Ok((carbon, estimated))
    {
      assert guesses[..i + 1][..i] == guesses[..i];
      var updated := CarbonUpdate.UpdateCarbonData(carbon, guesses[i].key, guesses[i].value, GuessSource);
      if updated.Raised? {
        MergeRaisesOnward(carbon0, est0, guesses, i + 1);
        return Raised;
      }
      carbon := updated.value;
      estimated := Set(estimated, guesses[i].key, guesses[i].value);
    }
    assert guesses[..|guesses|] == guesses;
    r := Ok((carbon, estimated));
  }

  /** The loop over the planned searches, then the save. */
  method SavePlannedRun(env: Env, st: WState, missing: seq<string>, plan: PlanningAgent.Plan,
                        merged: Fields, est: Fields) returns (r: Result<WState>)
    ensures r == SavePlanned(env, st, missing, plan, merged, est)
  {
    var carbon := merged;
    if plan.searchResults.Some? && plan.searchResults.value != [] {
      var rs := plan.searchResults.value;
      for i := 0 to |rs|
        invariant carbon == ApplyPlanned(env, st, missing, merged, rs[..i])
      {
        assert rs[..i + 1][..i] == rs[..i];
        var ex := DataExtractor.ExtractDataFromSearch(env.extract, env.decode, rs[i].result, missing,
                                                      st.brand, st.product, carbon);
        carbon := ex.updated;
      }
      assert rs[..|rs|] == rs;
    }
    var status := CarbonState.CarbonDataStatus(carbon);
    if status.Raised? {
      return Raised;
    }
    r := Ok(st.(carbon := carbon, estimated := est, completeness := status.value.completeness, plan := Some(plan)));
  }

  /** With something missing the planning node carries the completeness of
      the record it saves; with nothing missing it changes nothing. */
  lemma PlanningScored(env: Env, st: WState)
    requires CallPlanning(env, st).Ok?
    ensures CarbonState.MissingFields(st.carbon) != Ok([]) ==> Scored(CallPlanning(env, st).value)
    ensures CarbonState.MissingFields(st.carbon) == Ok([]) ==> CallPlanning(env, st).value == st
  {
    var missing := CarbonState.MissingFields(st.carbon).value;
    if missing != [] {
      var plan := PlanningAgent.PlanNextSteps(env.plan, env.decode, env.web, st.brand, st.product, st.carbon,
                                              missing, st.history, st.context, true);
      var merged := MergeGuesses(st.carbon, st.estimated, plan.guesses.members).value;
      assert CallPlanning(env, st) == SavePlanned(env, st, missing, plan, merged.0, merged.1);
    }
  }

  lemma {:induction false} MergeRaisesOnward(carbon: Fields, est: Fields, guesses: Fields, k: nat)
    requires k <= |guesses| && MergeGuesses(carbon, est, guesses[..k]).Raised?
    ensures MergeGuesses(carbon, est, guesses).Raised?
    decreases |guesses| - k
  {
    if k < |guesses| {
      assert guesses[..k + 1][..k] == guesses[..k];
      MergeRaisesOnward(carbon, est, guesses, k + 1);
    } else {
      assert guesses[..k] == guesses;
    }
  }

  /** Every guess (keys distinct, as in a dict) is recorded in
      `estimated_data` under its own path with its own value, and nothing
      else there changes. */
  lemma {:induction false} GuessesRecorded(carbon: Fields, est: Fields, guesses: Fields)
    requires DistinctKeys(guesses) && MergeGuesses(carbon, est, guesses).Ok?
    ensures var e := MergeGuesses(carbon, est, guesses).value.1;
      && (forall i :: 0 <= i < |guesses| ==> Get(e, guesses[i].key) == Some(guesses[i].value))
      && (forall k :: k !in Keys(guesses) ==> Get(e, k) == Get(est, k))
    decreases |guesses|
  {
    if guesses != [] {
      var init := guesses[..|guesses| - 1];
      DistinctInit(guesses);
      GuessesRecorded(carbon, est, init);
      var e0 := MergeGuesses(carbon, est, init).value.1;
      assert MergeGuesses(carbon, est, guesses).value.1 == Set(e0, guesses[|guesses| - 1].key, guesses[|guesses| - 1].value);
      GuessStep(e0, est, guesses);
    }
  }

  lemma DistinctInit(ms: Fields)
    requires DistinctKeys(ms) && ms != []
    ensures DistinctKeys(ms[..|ms| - 1])
    ensures forall i :: 0 <= i < |ms| - 1 ==> ms[i].key != ms[|ms| - 1].key
    ensures forall k :: k !in Keys(ms) ==> k !in Keys(ms[..|ms| - 1])
  {
    var init := ms[..|ms| - 1];
    assert forall i :: 0 <= i < |init| ==> Keys(init)[i] == Keys(ms)[i];
  }

  /** Recording the last guess on top of the record of the others. */
  lemma GuessStep(e0: Fields, est: Fields, guesses: Fields)
    requires guesses != [] && DistinctKeys(guesses)
    requires var init := guesses[..|guesses| - 1];
      && (forall i :: 0 <= i < |init| ==> Get(e0, init[i].key) == Some(init[i].value))
      && (forall k :: k !in Keys(init) ==> Get(e0, k) == Get(est, k))
    ensures var e := Set(e0, guesses[|guesses| - 1].key, guesses[|guesses| - 1].value);
      && (forall i :: 0 <= i < |guesses| ==> Get(e, guesses[i].key) == Some(guesses[i].value))
      && (forall k :: k !in Keys(guesses) ==> Get(e, k) == Get(est, k))
  {
    var init := guesses[..|guesses| - 1];
    var last := guesses[|guesses| - 1];
    var e := Set(e0, last.key, last.value);
    DistinctInit(guesses);
    forall i | 0 <= i < |guesses| ensures Get(e, guesses[i].key) == Some(guesses[i].value) {
      if i < |init| {
        assert guesses[i] == init[i];
        assert guesses[i].key != last.key;
        assert Get(e, guesses[i].key) == Get(e0, init[i].key);
      } else {
        assert guesses[i] == last;
      }
    }
    forall k | k !in Keys(guesses) ensures Get(e, k) == Get(est, k) {
      assert Keys(guesses)[|guesses| - 1] == last.key;
      assert k != last.key && k !in Keys(init);
      assert Get(e, k) == Get(e0, k);
    }
  }

  /** With nothing missing the planning node leaves the state as it is. */
  lemma PlanningNothingMissing(env: Env, st: WState)
    requires CarbonState.MissingFields(st.carbon) == Ok([])
    ensures CallPlanning(env, st) == Ok(st)
  {
  }

  /** Since the brace span holds one `}`, the decoded guesses are never a
      non-empty dict: the planning node raises or merges no guess, so
      `estimated_data` is never changed by it. */
  lemma PlanningMergesNoGuess(env: Env, st: WState)
    requires PlanningAgent.BracesCloseObjects(env.decode)
    requires CallPlanning(env, st).Ok?
    ensures CallPlanning(env, st).value.estimated == st.estimated
  {
    var missing := CarbonState.MissingFields(st.carbon).value;
    if missing != [] {
      PlanningAgent.GuessesNeverObjects(env.plan, env.decode, env.web, st.brand, st.product, st.carbon,
                                        missing, st.history, st.context, true);
    }
  }

  // ---------------------------------------------------------------------
  // should_continue
  // ---------------------------------------------------------------------

  /** `hasattr(last, "tool_calls") and last.tool_calls`. */
  predicate HasToolCalls(m: Message) {
    m.Ai? && m.toolCalls != []
  }

  /** The label returned after the language-model node. */
  function ShouldContinue(st: WState): (r: Result<string>)
    ensures r.Ok? ==> r.value in ["complete", "planning", "continue", "end"]
    ensures r == Ok("continue") ==> st.searchCount < st.maxSearches
  {
    var missing :- CarbonState.MissingFields(st.carbon);
    if st.messages == [] then Raised
    else
      var hasToolCalls := HasToolCalls(st.messages[|st.messages| - 1]);
      if missing == [] then Ok("complete")
      else if st.searchCount >= st.maxSearches then Ok("planning")
      else if hasToolCalls then Ok("continue")
      else if st.searchCount > 0 && !hasToolCalls then Ok("planning")
      else Ok("end")
  }

  /** The decision in terms of the state, each label exactly characterised:
      completion wins, an exhausted budget comes next, tool calls after that;
      "max_reached" is never produced. */
  lemma DecisionMeaning(st: WState)
    requires CarbonState.MissingFields(st.carbon).Ok? && st.messages != []
    ensures var missing := CarbonState.MissingFields(st.carbon).value;
      var tools := HasToolCalls(st.messages[|st.messages| - 1]);
      var d := ShouldContinue(st).value;
      && (d == "complete" <==> missing == [])
      && (d == "planning" <==> missing != [] && (st.searchCount >= st.maxSearches || (!tools && st.searchCount > 0)))
      && (d == "continue" <==> missing != [] && st.searchCount < st.maxSearches && tools)
      && (d == "end" <==> missing != [] && st.searchCount < st.maxSearches && !tools && st.searchCount <= 0)
      && d != "max_reached"
  {
  }
}
