/** `workflow.py`: `collect_carbon_data`, which runs the graph on a record
    and reports the record it ends with, how complete it is and a summary. */
module Workflow {
  import opened Wrappers
  import opened JsonValue
  import Text
  import CarbonState
  import SearchAgent
  import Nodes
  import Graph

  /** The default of the `max_searches` parameter. */
  const DefaultMaxSearches: int := 10

  /** The result dict. `estimated` is absent from the early return. */
  datatype Collected = Collected(
    carbon: Fields,
    history: seq<SearchAgent.HistoryEntry>,
    completeness: int,
    achieved: bool,
    summary: string,
    estimated: Option<Fields>)

  const AlreadyPresent: string := "All data already present"
  const Succeeded: string := "All data collected successfully"
  const Failed: string := "Workflow failed"

  /** The human message the run starts from, naming the first five missing fields. */
  function StartMessage(brand: string, product: string, missing: seq<string>): string {
    "Collect carbon footprint data for " + brand + " " + product + ". Missing: "
      + Text.Join(Nodes.Take(missing, 5), ", ")
  }

  function InitialState(brand: string, product: string, carbon: Fields, maxSearches: int,
                        context: Fields, missing: seq<string>): (st: Nodes.WState)
    ensures st.searchCount == 0 && st.history == [] && st.estimated == [] && st.plan == None
  {
    Nodes.WState([Nodes.Human(StartMessage(brand, product, missing))], brand, product, carbon,
                 [], 0, maxSearches, 0, [], context, None)
  }

  /** `f"Collected {completeness:.1f}% of data"` with the budget note; the
      completeness is a whole number, so its one decimal is always 0. */
  function Summary(completeness: int, achieved: bool, searchCount: int, maxSearches: int): string {
    if achieved then Succeeded
    else "Collected " + Text.IntToString(completeness) + ".0% of data"
         + (if searchCount >= maxSearches then " (max searches " + Text.IntToString(maxSearches) + " reached)" else "")
  }

  /** What the stream loop and the code after it make of the streamed
      states. The loop computes the missing fields of every state for its
      debug record, which raises on a malformed record. */
  function Finish(carbon: Fields, stream: seq<Nodes.WState>, maxSearches: int): Result<Collected> {
    if exists s :: s in stream && CarbonState.MissingFields(s.carbon).Raised? then Raised
    else if stream == [] then Ok(Collected(carbon, [], 0, false, Failed, None))
    else Ok(Report(stream[|stream| - 1], maxSearches))
  }

  /** The report built from the last streamed state. */
  function Report(final: Nodes.WState, maxSearches: int): Collected
    requires CarbonState.MissingFields(final.carbon).Ok?
  {
    var achieved := CarbonState.MissingFields(final.carbon).value == [];
    Collected(final.carbon, final.history, final.completeness, achieved,
              Summary(final.completeness, achieved, final.searchCount, maxSearches), Some(final.estimated))
  }

  /** `collect_carbon_data`. Streaming in "values" mode yields the input state
      first and then the state after every node. `context` is `user_context or {}`. */
  function Collect(env: Nodes.Env, brand: string, product: string, carbon: Fields, maxSearches: int,
                   context: Fields): Result<Collected>
  {
    var missing :- CarbonState.MissingFields(carbon);
    if missing == [] then
      var status :- CarbonState.CarbonDataStatus(carbon);
      Ok(Collected(carbon, [], status.completeness, true, AlreadyPresent, None))
    else
      var init := InitialState(brand, product, carbon, maxSearches, context, missing);
      var t :- Graph.Run(env, Graph.Entry, init);
      Finish(carbon, [init] + t.states, maxSearches)
  }

  method CollectCarbonData(env: Nodes.Env, brand: string, product: string, carbon: Fields, maxSearches: int,
                           context: Fields) returns (r: Result<Collected>)
    ensures r == Collect(env, brand, product, carbon, maxSearches, context)
  {
    var missing := CarbonState.GetMissingFields(carbon);
    if missing.Raised? {
      return Raised;
    }
    if missing.value == [] {
      var status := CarbonState.CarbonDataStatus(carbon);
      if status.Raised? {
        return Raised;
      }
      return Ok(Collected(carbon, [], status.value.completeness, true, AlreadyPresent, None));
    }
    var init := InitialState(brand, product, carbon, maxSearches, context, missing.value);
    var run := Graph.Run(env, Graph.Entry, init);
    if run.Raised? {
      return Raised;
    }
    r := FinishStream(carbon, [init] + run.value.states, maxSearches);
  }

  /** The stream loop, which keeps the last state, and the report built from it. */
  method FinishStream(carbon: Fields, stream: seq<Nodes.WState>, maxSearches: int) returns (r: Result<Collected>)
    ensures r == Finish(carbon, stream, maxSearches)
  {
    var ok, final := ScanStream(stream);
    if !ok {
      return Raised;
    }
    if final.None? {
      return Ok(Collected(carbon, [], 0, false, Failed, None));
    }
    var c := ReportRun(final.value, maxSearches);
    r := Ok(c);
  }

  /** The loop over the streamed states: each one's missing fields are
      computed, and the last state is kept. */
  method ScanStream(stream: seq<Nodes.WState>) returns (ok: bool, final: Option<Nodes.WState>)
    ensures ok <==> forall s :: s in stream ==> CarbonState.MissingFields(s.carbon).Ok?
    ensures ok ==> final == if stream == [] then None else Some(stream[|stream| - 1])
  {
    final := None;
    for i := 0 to |stream|
      invariant final == if i == 0 then None else Some(stream[i - 1])
      invariant Every(Readable, stream[..i])
    {
      var seen := CarbonState.GetMissingFields(stream[i].carbon);
      assert stream[..i + 1][..i] == stream[..i];
      if seen.Raised? {
        EveryMeaning(Readable, stream);
        assert !Readable(stream[i]);
        return false, final;
      }
      final := Some(stream[i]);
    }
    assert stream[..|stream|] == stream;
    EveryMeaning(Readable, stream);
    ok := true;
  }

  /** A state whose record's missing fields can be computed. */
  predicate Readable(s: Nodes.WState) {
    CarbonState.MissingFields(s.carbon).Ok?
  }

  /** `f` holds of every element of `ss`, checked from the last one back. */
  predicate Every<T>(f: T -> bool, ss: seq<T>)
    decreases |ss|
  {
    ss == [] || (Every(f, ss[..|ss| - 1]) && f(ss[|ss| - 1]))
  }

  lemma {:induction false} EveryMeaning<T>(f: T -> bool, ss: seq<T>)
    ensures Every(f, ss) <==> forall s :: s in ss ==> f(s)
    decreases |ss|
  {
    if ss != [] {
      var init := ss[..|ss| - 1];
      EveryMeaning(f, init);
      assert ss == init + [ss[|ss| - 1]];
    }
  }

  method ReportRun(final: Nodes.WState, maxSearches: int) returns (c: Collected)
    requires CarbonState.MissingFields(final.carbon).Ok?
    ensures c == Report(final, maxSearches)
  {
    var finalMissing := CarbonState.GetMissingFields(final.carbon);
    var achieved := finalMissing.value == [];
    var summary := "Collected " + Text.IntToString(final.completeness) + ".0% of data";
    if achieved {
      summary := Succeeded;
    } else if final.searchCount >= maxSearches {
      summary := summary + " (max searches " + Text.IntToString(maxSearches) + " reached)";
    } else {
      assert summary + "" == summary;
    }
    assert summary == Summary(final.completeness, achieved, final.searchCount, maxSearches);
    c := Collected(final.carbon, final.history, final.completeness, achieved, summary, Some(final.estimated));
  }

  /** What a report of `collect_carbon_data` means: its completeness is that of
      the record it returns, it counts as achieved exactly when that record
      misses nothing, it says so exactly then, and it never reports a failed
      workflow. */
  lemma CollectMeaning(env: Nodes.Env, brand: string, product: string, carbon: Fields, maxSearches: int,
                       context: Fields)
    requires Collect(env, brand, product, carbon, maxSearches, context).Ok?
    ensures var c := Collect(env, brand, product, carbon, maxSearches, context).value;
      && CarbonState.MissingFields(c.carbon).Ok?
      && c.completeness == CarbonState.Completeness(|CarbonState.MissingFields(c.carbon).value|)
      && (c.achieved <==> CarbonState.MissingFields(c.carbon).value == [])
      && (c.achieved <==> c.summary == AlreadyPresent || c.summary == Succeeded)
      && c.summary != Failed
  {
    var c := Collect(env, brand, product, carbon, maxSearches, context).value;
    var missing := CarbonState.MissingFields(carbon).value;
    if missing == [] {
      CarbonState.StatusMeaning(carbon);
    } else {
      var init := InitialState(brand, product, carbon, maxSearches, context, missing);
      var t := Graph.Run(env, Graph.Entry, init).value;
      Graph.StepperLawful(env);
      Graph.StepperKeepsScored(env);
      Graph.RunScored(Graph.Stepper(env), Graph.Entry, init);
      var stream := [init] + t.states;
      var final := stream[|stream| - 1];
      Graph.RunEnds(Graph.Stepper(env), Graph.Entry, init);
      assert final in t.states;
      CarbonState.StatusMeaning(final.carbon);
      if !c.achieved {
        assert c.summary[0] == 'C';
      }
    }
  }

  /** The run behind a report: at most `2 * max(0, max_searches) + 3` nodes, the
      tools node at most `max(0, max_searches)` times, the last search count
      equal to the number of tools visits, and the planning node at most once,
      as the last node. */
  lemma CollectBounds(env: Nodes.Env, brand: string, product: string, carbon: Fields, maxSearches: int,
                      context: Fields)
    requires CarbonState.MissingFields(carbon).Ok? && CarbonState.MissingFields(carbon).value != []
    requires Collect(env, brand, product, carbon, maxSearches, context).Ok?
    ensures var init := InitialState(brand, product, carbon, maxSearches, context, CarbonState.MissingFields(carbon).value);
      var t := Graph.Run(env, Graph.Entry, init).value;
      var budget := if maxSearches > 0 then maxSearches else 0;
      && |t.visited| <= 2 * budget + 3
      && multiset(t.visited)[Graph.Tools] <= budget
      && t.states[|t.states| - 1].searchCount == multiset(t.visited)[Graph.Tools]
      && multiset(t.visited)[Graph.Planning] <= 1
      && (forall i :: 0 <= i < |t.visited| - 1 ==> t.visited[i] != Graph.Planning)
  {
    var init := InitialState(brand, product, carbon, maxSearches, context, CarbonState.MissingFields(carbon).value);
    Graph.StepperLawful(env);
    Graph.RunBounds(Graph.Stepper(env), Graph.Entry, init);
    Graph.RunEnds(Graph.Stepper(env), Graph.Entry, init);
  }

  /** LangGraph stops a run after 25 steps by default; with the default budget
      of ten searches at most 23 nodes run. */
  lemma DefaultBudgetWithinStepLimit(env: Nodes.Env, brand: string, product: string, carbon: Fields,
                                     context: Fields)
    requires CarbonState.MissingFields(carbon).Ok? && CarbonState.MissingFields(carbon).value != []
    requires Collect(env, brand, product, carbon, DefaultMaxSearches, context).Ok?
    ensures var init := InitialState(brand, product, carbon, DefaultMaxSearches, context, CarbonState.MissingFields(carbon).value);
      |Graph.Run(env, Graph.Entry, init).value.visited| <= 23
  {
    CollectBounds(env, brand, product, carbon, DefaultMaxSearches, context);
  }

  /** The summary: the success text exactly when achieved; otherwise the
      percentage line, followed by the budget note exactly when the search
      count has reached the maximum. */
  lemma SummaryChoice(completeness: int, achieved: bool, searchCount: int, maxSearches: int)
    ensures var s := Summary(completeness, achieved, searchCount, maxSearches);
      var line := "Collected " + Text.IntToString(completeness) + ".0% of data";
      && (achieved <==> s == Succeeded)
      && (!achieved ==> |line| <= |s| && s[..|line|] == line)
      && (!achieved ==> (searchCount >= maxSearches <==> |s| > |line|))
  {
    var s := Summary(completeness, achieved, searchCount, maxSearches);
    if !achieved {
      assert s[0] == 'C';
    }
  }

  /** An empty stream reports the input record as a failed workflow; otherwise
      the report carries the last state's record, history, completeness and
      estimates. */
  lemma FinishMeaning(carbon: Fields, stream: seq<Nodes.WState>, maxSearches: int)
    ensures stream == [] ==> Finish(carbon, stream, maxSearches) == Ok(Collected(carbon, [], 0, false, Failed, None))
    ensures stream != [] && Finish(carbon, stream, maxSearches).Ok? ==>
      var c := Finish(carbon, stream, maxSearches).value;
      var last := stream[|stream| - 1];
      && c.carbon == last.carbon && c.history == last.history && c.completeness == last.completeness
      && c.estimated == Some(last.estimated)
      && (c.achieved <==> CarbonState.MissingFields(last.carbon) == Ok([]))
      && c.summary == Summary(last.completeness, c.achieved, last.searchCount, maxSearches)
    ensures (forall s :: s in stream ==> CarbonState.MissingFields(s.carbon).Ok?) <==> Finish(carbon, stream, maxSearches).Ok?
  {
    if stream != [] {
      assert stream[|stream| - 1] in stream;
    }
  }
}
