/** `graph.py`: the workflow graph (estimate, then the model, which either
    calls the search tool and comes back, hands over to the planning agent,
    or ends) and its execution from the entry point, one node at a time. */
module Graph {
  import opened Wrappers
  import Nodes
  import CarbonState

  datatype Node = Estimate | Llm | Tools | Planning | End

  /** `set_entry_point("estimate")`. */
  const Entry: Node := Estimate

  /** The unconditional edges; the model node has none, `End` is final. */
  function Edge(n: Node): Option<Node> {
    match n
    case Estimate => Some(Llm)
    case Tools => Some(Llm)
    case Planning => Some(End)
    case _ => None
  }

  /** The mapping of `should_continue`'s labels; an unknown decision has no target. */
  function Route(decision: string): Option<Node> {
    if decision == "continue" then Some(Tools)
    else if decision == "complete" then Some(End)
    else if decision == "max_reached" then Some(Planning)
    else if decision == "planning" then Some(Planning)
    else if decision == "end" then Some(End)
    else None
  }

  /** Each target of the decision mapping, with exactly the labels that lead to it. */
  lemma RouteMeaning(decision: string)
    ensures Route(decision) == Some(Tools) <==> decision == "continue"
    ensures Route(decision) == Some(Planning) <==> decision == "max_reached" || decision == "planning"
    ensures Route(decision) == Some(End) <==> decision == "complete" || decision == "end"
    ensures Route(decision) != Some(Estimate) && Route(decision) != Some(Llm)
    ensures Route(decision).None? <==> decision !in ["continue", "complete", "max_reached", "planning", "end"]
  {
  }

  /** No edge, fixed or conditional, leads back to the entry node, and the
      planning node can only be followed by the end. */
  lemma GraphShape(n: Node, decision: string)
    ensures Edge(n) != Some(Estimate) && Route(decision) != Some(Estimate)
    ensures Edge(Planning) == Some(End) && Edge(Estimate) == Some(Llm) && Edge(Tools) == Some(Llm)
    ensures Edge(n).None? <==> n == Llm || n == End
  {
  }

  /** Running node `n` on `st`: its new state and the node that follows. */
  function Step(env: Nodes.Env, n: Node, st: Nodes.WState): (r: Result<(Nodes.WState, Node)>)
    requires n != End
    ensures r.Ok? ==> Nodes.SameRun(st, r.value.0)
    ensures r.Ok? ==> r.value.0.searchCount == st.searchCount + (if n == Tools then 1 else 0)
    ensures r.Ok? && r.value.1 == Tools ==> r.value.0.searchCount < r.value.0.maxSearches
    ensures r.Ok? && n != Llm ==> Edge(n) == Some(r.value.1)
    ensures r.Ok? && n == Llm ==> r.value.1 != Estimate && r.value.1 != Llm
  {
    match n
    case Estimate =>
      var s :- Nodes.Estimate(env, st);
      Ok((s, Llm))
    case Llm =>
      var s :- Nodes.CallModel(env, st);
      var decision :- Nodes.ShouldContinue(s);
      (match Route(decision)
       case None => Raised
       case Some(m) => Ok((s, m)))
    case Tools =>
      var s :- Nodes.CallTool(env, st);
      Ok((s, Llm))
    case Planning =>
      var s :- Nodes.CallPlanning(env, st);
      Ok((s, End))
  }

  /** Every node keeps a state's completeness that of its record, and the
      estimate node makes it so on a record with something missing. */
  lemma StepScored(env: Nodes.Env, n: Node, st: Nodes.WState)
    requires n != End && Step(env, n, st).Ok?
    requires Nodes.Scored(st) || (n == Estimate && CarbonState.MissingFields(st.carbon) != Ok([]))
    ensures Nodes.Scored(Step(env, n, st).value.0)
  {
    var s := Step(env, n, st).value.0;
    match n
    case Estimate =>
      assert s == Nodes.Estimate(env, st).value;
      Nodes.EstimateScored(env, st);
    case Llm =>
      assert s == Nodes.CallModel(env, st).value;
    case Tools =>
      assert s == Nodes.CallTool(env, st).value;
      Nodes.ToolsScored(env, st);
    case Planning =>
      assert s == Nodes.CallPlanning(env, st).value;
      Nodes.PlanningScored(env, st);
  }

  /** The searches still allowed. */
  function Budget(st: Nodes.WState): nat {
    if st.maxSearches - st.searchCount > 0 then st.maxSearches - st.searchCount else 0
  }

  /** An upper bound on the nodes left to run from `n`. */
  function Measure(n: Node, st: Nodes.WState): nat {
    match n
    case Estimate => 2 * Budget(st) + 3
    case Llm => 2 * Budget(st) + 2
    case Tools => 2 * Budget(st) + 1
    case Planning => 1
    case End => 0
  }

  /** The nodes run, in order, and the state each of them produced. */
  datatype Trace = Trace(visited: seq<Node>, states: seq<Nodes.WState>)

  /** How one node acts on a state; `Stepper(env)` is the compiled graph's. */
  type NodeStep = (Node, Nodes.WState) -> Result<(Nodes.WState, Node)>

  function Stepper(env: Nodes.Env): NodeStep {
    (n: Node, st: Nodes.WState) => if n == End then Raised else Step(env, n, st)
  }

  /** The promises of `Step` for one step from `n` on `st` to `out`. */
  predicate StepLaws(n: Node, st: Nodes.WState, out: (Nodes.WState, Node)) {
    && Nodes.SameRun(st, out.0)
    && out.0.searchCount == st.searchCount + (if n == Tools then 1 else 0)
    && (out.1 == Tools ==> out.0.searchCount < out.0.maxSearches)
    && (n != Llm ==> Edge(n) == Some(out.1))
    && (n == Llm ==> out.1 != Estimate && out.1 != Llm)
  }

  ghost predicate Lawful(step: NodeStep) {
    forall n, st :: n != End && step(n, st).Ok? ==> StepLaws(n, st, step(n, st).value)
  }

  lemma StepperLawful(env: Nodes.Env)
    ensures Lawful(Stepper(env))
  {
    forall n, st | n != End && Stepper(env)(n, st).Ok?
      ensures StepLaws(n, st, Stepper(env)(n, st).value)
    {
      assert Stepper(env)(n, st) == Step(env, n, st);
    }
  }

  /** Running the nodes from `n` on `st` until the end; an exception in any
      node ends the run with it. */
  function Execute(step: NodeStep, n: Node, st: Nodes.WState): (r: Result<Trace>)
    requires Lawful(step)
    requires n == Tools ==> st.searchCount < st.maxSearches
    ensures r.Ok? ==> |r.value.visited| == |r.value.states|
    decreases Measure(n, st)
  {
    if n == End then Ok(Trace([], []))
    else
      var next :- step(n, st);
      var rest :- Execute(step, next.1, next.0);
      Ok(Trace([n] + rest.visited, [next.0] + rest.states))
  }

  /** The graph run from `n`. */
  function Run(env: Nodes.Env, n: Node, st: Nodes.WState): (r: Result<Trace>)
    requires n == Tools ==> st.searchCount < st.maxSearches
    ensures r.Ok? ==> |r.value.visited| == |r.value.states|
  {
    StepperLawful(env);
    Execute(Stepper(env), n, st)
  }

  /** One lawful step lowers the measure. */
  lemma MeasureDrops(step: NodeStep, n: Node, st: Nodes.WState)
    requires Lawful(step) && n != End && step(n, st).Ok?
    requires n == Tools ==> st.searchCount < st.maxSearches
    ensures StepLaws(n, st, step(n, st).value)
    ensures Measure(step(n, st).value.1, step(n, st).value.0) < Measure(n, st)
  {
  }

  /** The bounds of a run: it visits no more nodes than the measure, the
      tools node at most once per allowed search, the planning node at most
      once and the entry node once; the search count goes up by one per
      tools visit, and no node changes the product, the budget or the
      context. */
  lemma RunBounds(step: NodeStep, n: Node, st: Nodes.WState)
    requires Lawful(step)
    requires n == Tools ==> st.searchCount < st.maxSearches
    requires Execute(step, n, st).Ok?
    ensures var t := Execute(step, n, st).value;
      && |t.visited| <= Measure(n, st)
      && multiset(t.visited)[Tools] <= Budget(st)
      && multiset(t.visited)[Planning] <= 1
      && multiset(t.visited)[Estimate] == (if n == Estimate then 1 else 0)
      && (forall s :: s in t.states ==> Nodes.SameRun(st, s))
      && (t.states != [] ==> t.states[|t.states| - 1].searchCount == st.searchCount + multiset(t.visited)[Tools])
  {
    RunLength(step, n, st);
    RunVisitsOnce(step, n, st);
    RunKeeps(step, n, st);
  }

  lemma {:induction false} RunLength(step: NodeStep, n: Node, st: Nodes.WState)
    requires Lawful(step)
    requires n == Tools ==> st.searchCount < st.maxSearches
    requires Execute(step, n, st).Ok?
    ensures var t := Execute(step, n, st).value;
      && |t.visited| <= Measure(n, st)
      && multiset(t.visited)[Tools] <= Budget(st)
    decreases Measure(n, st)
  {
    if n != End {
      MeasureDrops(step, n, st);
      var next := step(n, st).value;
      RunLength(step, next.1, next.0);
      var rest := Execute(step, next.1, next.0).value;
      var t := Execute(step, n, st).value;
      assert t.visited == [n] + rest.visited;
      assert multiset(t.visited) == multiset{n} + multiset(rest.visited);
    }
  }

  lemma {:induction false} RunVisitsOnce(step: NodeStep, n: Node, st: Nodes.WState)
    requires Lawful(step)
    requires n == Tools ==> st.searchCount < st.maxSearches
    requires Execute(step, n, st).Ok?
    ensures var t := Execute(step, n, st).value;
      && multiset(t.visited)[Planning] <= 1
      && multiset(t.visited)[Estimate] == (if n == Estimate then 1 else 0)
      && (n == Planning ==> t.visited == [Planning])
    decreases Measure(n, st)
  {
    if n != End {
      MeasureDrops(step, n, st);
      var next := step(n, st).value;
      RunVisitsOnce(step, next.1, next.0);
      var rest := Execute(step, next.1, next.0).value;
      var t := Execute(step, n, st).value;
      assert t.visited == [n] + rest.visited;
      assert multiset(t.visited) == multiset{n} + multiset(rest.visited);
      if n == Planning {
        assert rest.visited == [];
      }
    }
  }

  lemma RunKeeps(step: NodeStep, n: Node, st: Nodes.WState)
    requires Lawful(step)
    requires n == Tools ==> st.searchCount < st.maxSearches
    requires Execute(step, n, st).Ok?
    ensures var t := Execute(step, n, st).value;
      && (forall s :: s in t.states ==> Nodes.SameRun(st, s))
      && (t.states != [] ==> t.states[|t.states| - 1].searchCount == st.searchCount + multiset(t.visited)[Tools])
  {
    RunSameRun(step, n, st);
    RunCounts(step, n, st);
  }

  lemma {:induction false} RunSameRun(step: NodeStep, n: Node, st: Nodes.WState)
    requires Lawful(step)
    requires n == Tools ==> st.searchCount < st.maxSearches
    requires Execute(step, n, st).Ok?
    ensures forall s :: s in Execute(step, n, st).value.states ==> Nodes.SameRun(st, s)
    decreases Measure(n, st)
  {
    if n != End {
      MeasureDrops(step, n, st);
      var next := step(n, st).value;
      RunSameRun(step, next.1, next.0);
      var rest := Execute(step, next.1, next.0).value;
      var t := Execute(step, n, st).value;
      assert t.states == [next.0] + rest.states;
      forall s | s in t.states ensures Nodes.SameRun(st, s) {
        if s != next.0 {
          assert s in rest.states;
        }
      }
    }
  }

  lemma RunCounts(step: NodeStep, n: Node, st: Nodes.WState)
    requires Lawful(step)
    requires n == Tools ==> st.searchCount < st.maxSearches
    requires Execute(step, n, st).Ok?
    ensures var t := Execute(step, n, st).value;
      t.states != [] ==> t.states[|t.states| - 1].searchCount == st.searchCount + multiset(t.visited)[Tools]
  {
    RunTally(step, n, st);
    VisitsCount(Execute(step, n, st).value.visited, Tools);
  }

  /** The count of the last state, with the tools visits counted from the front. */
  lemma {:induction false} RunTally(step: NodeStep, n: Node, st: Nodes.WState)
    requires Lawful(step)
    requires n == Tools ==> st.searchCount < st.maxSearches
    requires Execute(step, n, st).Ok?
    ensures var t := Execute(step, n, st).value;
      t.states != [] ==> t.states[|t.states| - 1].searchCount == st.searchCount + Visits(t.visited, Tools)
    decreases Measure(n, st)
  {
    if n != End {
      MeasureDrops(step, n, st);
      var next := step(n, st).value;
      RunTally(step, next.1, next.0);
      var rest := Execute(step, next.1, next.0).value;
      var t := Execute(step, n, st).value;
      assert t.visited[1..] == rest.visited;
      if rest.states != [] {
        LastOfCons(next.0, rest.states);
      } else {
        assert rest.visited == [];
      }
    }
  }

  /** How many times `m` occurs in `vs`, counted from the front. */
  function Visits(vs: seq<Node>, m: Node): nat {
    if vs == [] then 0 else (if vs[0] == m then 1 else 0) + Visits(vs[1..], m)
  }

  lemma {:induction false} VisitsCount(vs: seq<Node>, m: Node)
    ensures Visits(vs, m) == multiset(vs)[m]
  {
    if vs != [] {
      VisitsCount(vs[1..], m);
      assert vs == [vs[0]] + vs[1..];
      CountCons(vs[0], vs[1..], m);
    }
  }

  lemma CountCons(n: Node, vs: seq<Node>, m: Node)
    ensures multiset([n] + vs)[m] == (if n == m then 1 else 0) + multiset(vs)[m]
  {
    assert multiset([n] + vs) == multiset{n} + multiset(vs);
  }

  lemma LastOfCons<T>(x: T, s: seq<T>)
    requires s != []
    ensures ([x] + s)[|s|] == s[|s| - 1]
  {
  }

  /** A run from a live node ends after the planning node or after a model
      call that decided to stop. */
  lemma {:induction false} RunEnds(step: NodeStep, n: Node, st: Nodes.WState)
    requires Lawful(step)
    requires n == Tools ==> st.searchCount < st.maxSearches
    requires n != End && Execute(step, n, st).Ok?
    ensures var t := Execute(step, n, st).value;
      && t.visited != [] && t.visited[0] == n
      && (t.visited[|t.visited| - 1] == Planning || t.visited[|t.visited| - 1] == Llm)
      && (forall i :: 0 <= i < |t.visited| - 1 ==> t.visited[i] != Planning)
    decreases Measure(n, st)
  {
    MeasureDrops(step, n, st);
    var next := step(n, st).value;
    var t := Execute(step, n, st).value;
    if next.1 != End {
      RunEnds(step, next.1, next.0);
      var rest := Execute(step, next.1, next.0).value;
      assert t.visited == [n] + rest.visited;
    } else {
      assert t.visited == [n];
    }
  }

  /** The steps keep a state's completeness that of its record, once the
      estimate node has made it so. */
  ghost predicate KeepsScored(step: NodeStep) {
    forall n, st :: n != End && step(n, st).Ok? &&
      (Nodes.Scored(st) || (n == Estimate && CarbonState.MissingFields(st.carbon) != Ok([])))
      ==> Nodes.Scored(step(n, st).value.0)
  }

  lemma StepperKeepsScored(env: Nodes.Env)
    ensures KeepsScored(Stepper(env))
  {
    forall n, st | n != End && Stepper(env)(n, st).Ok? &&
      (Nodes.Scored(st) || (n == Estimate && CarbonState.MissingFields(st.carbon) != Ok([])))
      ensures Nodes.Scored(Stepper(env)(n, st).value.0)
    {
      assert Stepper(env)(n, st) == Step(env, n, st);
      StepScored(env, n, st);
    }
  }

  /** Every state of a run from the entry, started on a record with something
      missing, carries the completeness of its own record. */
  lemma {:induction false} RunScored(step: NodeStep, n: Node, st: Nodes.WState)
    requires Lawful(step) && KeepsScored(step)
    requires n == Tools ==> st.searchCount < st.maxSearches
    requires Execute(step, n, st).Ok?
    requires n != Estimate ==> Nodes.Scored(st)
    requires n == Estimate ==> CarbonState.MissingFields(st.carbon) != Ok([])
    ensures forall s :: s in Execute(step, n, st).value.states ==> Nodes.Scored(s)
    decreases Measure(n, st)
  {
    if n != End {
      MeasureDrops(step, n, st);
      var next := step(n, st).value;
      RunScored(step, next.1, next.0);
    }
  }
}
