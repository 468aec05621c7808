/**
 * The pipeline service of backend/services/PipelineService.js: storing a
 * pipeline with its steps numbered, running it as a linear state graph
 * whose nodes call the AI helpers by name, recording the run's status, and
 * deleting a user's pipeline.
 *
 * The helpers of backend/utils/aiActions.js are an oracle from the export's
 * name and its two arguments to a value or a rejection.
 */
module Pipelines {
  import opened Wrappers
  import opened JsText
  import opened ActionRegistry
  import opened PipelineRoutes

  /** A step as `createPipeline` stores it: the caller's fields and `order`. */
  datatype OrderedStep = OrderedStep(action: string, inputs: Value, order: nat)

  /** `{ ...step, order: index }` (lines 13-16) for the steps that start at position `from`. */
  function NumberFrom(steps: seq<Step>, from: nat): (r: seq<OrderedStep>)
    ensures |r| == |steps|
    ensures forall i :: 0 <= i < |steps| ==>
      r[i].action == steps[i].action && r[i].inputs == steps[i].inputs && r[i].order == from + i
    decreases |steps|
  {
    if steps == [] then [] else [OrderedStep(steps[0].action, steps[0].inputs, from)] + NumberFrom(steps[1..], from + 1)
  }

  /** The `steps` written by `createPipeline`: every step keeps its fields and its place, and `order` is its index. */
  function NumberSteps(steps: seq<Step>): (r: seq<OrderedStep>)
    ensures |r| == |steps|
    ensures forall i :: 0 <= i < |steps| ==> r[i].order == i
  {
    NumberFrom(steps, 0)
  }

  /** The caller's view of stored steps: `order` dropped. */
  function Unnumbered(s: seq<OrderedStep>): (r: seq<Step>)
    ensures |r| == |s|
    decreases |s|
  {
    if s == [] then [] else [Step(s[0].action, s[0].inputs)] + Unnumbered(s[1..])
  }

  /** Numbering adds `order` and nothing else: dropping it again gives back the caller's steps. */
  lemma {:induction false} UnnumberedNumberFrom(steps: seq<Step>, from: nat)
    ensures Unnumbered(NumberFrom(steps, from)) == steps
    decreases |steps|
  {
    if steps != [] {
      var r := NumberFrom(steps, from);
      assert r[1..] == NumberFrom(steps[1..], from + 1);
      UnnumberedNumberFrom(steps[1..], from + 1);
      assert [steps[0]] + steps[1..] == steps;
    }
  }

  /** A stored Tool document (backend/models/Tool.js) without its timestamps. */
  datatype Pipeline = Pipeline(id: ToolId, userId: string, name: string, description: string, steps: seq<OrderedStep>)

  /** `pipelineData`; `steps` is None when the caller left it undefined. */
  datatype PipelineData = PipelineData(name: string, description: string, steps: Option<seq<Step>>)

  const StepsUndefined := "Cannot read properties of undefined (reading 'map')"
  const LastStepUndefined := "Cannot read properties of undefined (reading 'action')"
  const NotAFunction := "aiActions[step.action] is not a function"
  const PipelineMissing := "Pipeline not found"

  /** The functions backend/utils/aiActions.js exports; any other name (its `default` object included) is not callable. */
  const AiExports: set<string> := {"pdf_to_text", "analyze_content", "calculate_engagement", "extract_skills",
                                   "summarize_text", "compare_to_job_description", "process_document"}

  /** The awaited `aiActions[name](input, inputs)` for an exported name. */
  type Call = (string, Value, Value) -> Result<Value>

  /** The graph's state: the object the nodes spread and extend. */
  type State = map<string, Value>

  /** `state.input`, null when the key is absent. */
  function NodeArg(state: State): Value
  {
    if "input" in state then state["input"] else Null
  }

  /** The call a node makes (line 52): a name that is not an export throws before any call. */
  function NodeCall(action: string, arg: Value, inputs: Value, call: Call): Result<Value>
  {
    if action in AiExports then call(action, arg, inputs) else Err(NotAFunction)
  }

  /** The node's `catch` (lines 54-56). */
  function StepFailure(action: string, message: string): string
  {
    "Step " + action + " failed: " + message
  }

  /**
   * The compiled graph run along its chain (lines 72): each node calls its
   * helper on `state.input` and returns `{ ...state, [action]: result }`;
   * the first failing node rejects the run with the wrapped message.
   */
  function Invoke(steps: seq<OrderedStep>, state: State, call: Call): Result<State>
    decreases |steps|
  {
    if steps == [] then Ok(state)
    else
      match NodeCall(steps[0].action, NodeArg(state), steps[0].inputs, call)
      case Err(m) => Err(StepFailure(steps[0].action, m))
      case Ok(v) => Invoke(steps[1..], state[steps[0].action := v], call)
  }

  /** The state the node of step `k` receives, or None when an earlier node failed. */
  function Reached(steps: seq<OrderedStep>, state: State, call: Call, k: nat): Option<State>
    requires k <= |steps|
    decreases k
  {
    if k == 0 then Some(state)
    else
      match Reached(steps, state, call, k - 1)
      case None => None
      case Some(s) =>
        match NodeCall(steps[k - 1].action, NodeArg(s), steps[k - 1].inputs, call)
        case Err(_) => None
        case Ok(v) => Some(s[steps[k - 1].action := v])
  }

  /** A run that reached step `k` goes on as a run of the remaining steps from the state there. */
  lemma {:induction false} InvokeFromReached(steps: seq<OrderedStep>, state: State, call: Call, k: nat)
    requires k <= |steps| && Reached(steps, state, call, k).Some?
    ensures Invoke(steps, state, call) == Invoke(steps[k..], Reached(steps, state, call, k).value, call)
    decreases k
  {
    if k > 0 {
      InvokeFromReached(steps, state, call, k - 1);
      var s := Reached(steps, state, call, k - 1).value;
      assert steps[k - 1..][1..] == steps[k..];
    }
  }

  /**
   * A node that fails after the earlier ones succeeded rejects the whole run
   * with "Step <action> failed: <message>"; no later node runs.
   */
  lemma InvokeFailsAtStep(steps: seq<OrderedStep>, state: State, call: Call, k: nat)
    requires k < |steps| && Reached(steps, state, call, k).Some?
    requires NodeCall(steps[k].action, NodeArg(Reached(steps, state, call, k).value), steps[k].inputs, call).Err?
    ensures Invoke(steps, state, call) ==
      Err(StepFailure(steps[k].action, NodeCall(steps[k].action, NodeArg(Reached(steps, state, call, k).value), steps[k].inputs, call).error))
  {
    InvokeFromReached(steps, state, call, k);
  }

  /** The run succeeds exactly when every node does, and its result is the state after the last one. */
  lemma InvokeSucceedsIff(steps: seq<OrderedStep>, state: State, call: Call)
    ensures Invoke(steps, state, call).Ok? <==> Reached(steps, state, call, |steps|).Some?
    ensures Invoke(steps, state, call).Ok? ==> Invoke(steps, state, call).value == Reached(steps, state, call, |steps|).value
  {
    var n := |steps|;
    if Reached(steps, state, call, n).Some? {
      InvokeFromReached(steps, state, call, n);
    } else {
      var k := FirstUnreached(steps, state, call, n);
      InvokeFromReached(steps, state, call, k);
      assert steps[k..][1..] == steps[k + 1..];
    }
  }

  /** The last step that was reached before `Reached` turns None at or before `n`. */
  lemma {:induction false} FirstUnreached(steps: seq<OrderedStep>, state: State, call: Call, n: nat) returns (k: nat)
    requires n <= |steps| && Reached(steps, state, call, n).None?
    ensures k < n && Reached(steps, state, call, k).Some?
    ensures NodeCall(steps[k].action, NodeArg(Reached(steps, state, call, k).value), steps[k].inputs, call).Err?
    decreases n
  {
    if Reached(steps, state, call, n - 1).None? {
      k := FirstUnreached(steps, state, call, n - 1);
    } else {
      k := n - 1;
    }
  }

  /**
   * No node overwrites `input` unless a step is named "input": then every
   * node receives the run's original input, not its predecessor's result,
   * and the state holds one key per step that ran.
   */
  lemma {:induction false} ReachedKeepsInput(steps: seq<OrderedStep>, state: State, call: Call, k: nat)
    requires k <= |steps| && "input" in state
    requires forall i :: 0 <= i < |steps| ==> steps[i].action != "input"
    requires Reached(steps, state, call, k).Some?
    ensures NodeArg(Reached(steps, state, call, k).value) == state["input"]
    ensures forall i :: 0 <= i < k ==> steps[i].action in Reached(steps, state, call, k).value
    ensures state.Keys <= Reached(steps, state, call, k).value.Keys
    decreases k
  {
    if k > 0 {
      ReachedKeepsInput(steps, state, call, k - 1);
    }
  }

  /** A graph edge; "START" and "END" are the names the source passes for the entry and the exit. */
  datatype Edge = Edge(source: string, target: string)

  const Start := "START"
  const End := "END"

  /** The node names, one per step, in step order. */
  function Names(steps: seq<OrderedStep>): (r: seq<string>)
    ensures |r| == |steps|
    ensures forall i :: 0 <= i < |steps| ==> r[i] == steps[i].action
  {
    seq(|steps|, i requires 0 <= i < |steps| => steps[i].action)
  }

  /** The edges of lines 61-68 for a non-empty list: START to the first, each to the next, the last to END. */
  function ChainEdges(names: seq<string>): seq<Edge>
    requires names != []
  {
    seq(|names| + 1, i requires 0 <= i <= |names| => Edge(if i == 0 then Start else names[i - 1], if i == |names| then End else names[i]))
  }

  /** The targets of the edges leaving `source`, in insertion order. */
  function Targets(edges: seq<Edge>, source: string): seq<string>
    decreases |edges|
  {
    if edges == [] then []
    else (if edges[0].source == source then [edges[0].target] else []) + Targets(edges[1..], source)
  }

  lemma {:induction false} TargetsOfUnique(edges: seq<Edge>, source: string, j: nat)
    requires j < |edges| && edges[j].source == source
    requires forall i :: 0 <= i < |edges| && i != j ==> edges[i].source != source
    ensures Targets(edges, source) == [edges[j].target]
    decreases |edges|
  {
    if j > 0 {
      TargetsOfUnique(edges[1..], source, j - 1);
    } else {
      TargetsOfNone(edges[1..], source);
    }
  }

  lemma {:induction false} TargetsOfNone(edges: seq<Edge>, source: string)
    requires forall i :: 0 <= i < |edges| ==> edges[i].source != source
    ensures Targets(edges, source) == []
    decreases |edges|
  {
    if edges != [] {
      TargetsOfNone(edges[1..], source);
    }
  }

  /**
   * For distinct step names other than "START" and "END" the edges form a
   * single chain of n+1 edges: one edge leaves START, to the first step,
   * one leaves each step, to the next step or to END, and none leaves END.
   */
  lemma ChainIsSingle(names: seq<string>)
    requires names != [] && NoDuplicates(names)
    requires Start !in names && End !in names
    ensures |ChainEdges(names)| == |names| + 1
    ensures Targets(ChainEdges(names), Start) == [names[0]]
    ensures forall i :: 0 <= i < |names| ==>
      Targets(ChainEdges(names), names[i]) == [if i + 1 < |names| then names[i + 1] else End]
    ensures Targets(ChainEdges(names), End) == []
  {
    var edges := ChainEdges(names);
    TargetsOfUnique(edges, Start, 0);
    forall i | 0 <= i < |names|
      ensures Targets(edges, names[i]) == [if i + 1 < |names| then names[i + 1] else End]
    {
      TargetsOfUnique(edges, names[i], i + 1);
    }
    TargetsOfNone(edges, End);
  }

  /** `new StateGraph(..)` reduced to the names of its nodes and its edges, in insertion order. */
  class StateGraph {
    var nodes: seq<string>
    var edges: seq<Edge>

    constructor ()
      ensures nodes == [] && edges == []
    {
      nodes := [];
      edges := [];
    }

    method AddNode(name: string)
      modifies this
      ensures nodes == old(nodes) + [name] && edges == old(edges)
    {
      nodes := nodes + [name];
    }

    method AddEdge(source: string, target: string)
      modifies this
      ensures edges == old(edges) + [Edge(source, target)] && nodes == old(nodes)
    {
      edges := edges + [Edge(source, target)];
    }
  }

  /** The first `forEach` (lines 49-58): one node per step, in step order. */
  method AddNodes(g: StateGraph, steps: seq<OrderedStep>)
    modifies g
    ensures g.nodes == old(g.nodes) + Names(steps) && g.edges == old(g.edges)
  {
    for i := 0 to |steps|
      invariant g.nodes == old(g.nodes) + Names(steps)[..i]
      invariant g.edges == old(g.edges)
    {
      g.AddNode(steps[i].action);
      assert Names(steps)[..i + 1] == Names(steps)[..i] + [steps[i].action];
    }
    assert Names(steps)[..|steps|] == Names(steps);
  }

  /** The second `forEach` and line 68 over a non-empty list of names: the whole chain, in order. */
  method AddChain(g: StateGraph, names: seq<string>)
    requires names != []
    modifies g
    ensures g.edges == old(g.edges) + ChainEdges(names) && g.nodes == old(g.nodes)
  {
    var chain := ChainEdges(names);
    for i := 0 to |names|
      invariant g.nodes == old(g.nodes)
      invariant g.edges == old(g.edges) + chain[..i]
    {
      if i == 0 {
        g.AddEdge(Start, names[i]);
      } else {
        g.AddEdge(names[i - 1], names[i]);
      }
      assert chain[..i + 1] == chain[..i] + [chain[i]];
    }
    g.AddEdge(names[|names| - 1], End);
    assert chain == chain[..|names|] + [chain[|names|]];
  }

  /**
   * Lines 49-68: one node per step, then the chain of edges; without steps
   * `tool.steps[-1].action` throws after the (empty) loops.
   */
  method Wire(g: StateGraph, steps: seq<OrderedStep>) returns (r: Result<()>)
    modifies g
    ensures g.nodes == old(g.nodes) + Names(steps)
    ensures steps == [] ==> r == Err(LastStepUndefined) && g.edges == old(g.edges)
    ensures steps != [] ==> r == Ok(()) && g.edges == old(g.edges) + ChainEdges(Names(steps))
  {
    AddNodes(g, steps);
    if steps == [] {
      return Err(LastStepUndefined);
    }
    AddChain(g, Names(steps));
    r := Ok(());
  }

  /** An Execution document as PipelineService.js writes it; `output` is None before the run settles. */
  datatype RunRecord = RunRecord(toolId: ToolId, userId: string, input: Value, output: Option<Value>, error: Option<string>, status: Status)

  /** The record created at the start of a run (lines 30-35). */
  function Opened(toolId: ToolId, userId: string, input: Value): RunRecord
  {
    RunRecord(toolId, userId, input, None, None, Running)
  }

  /** The update of lines 76-81 after a result, or of lines 87-92 after an error. */
  function Settled(rec: RunRecord, outcome: Result<State>): RunRecord
  {
    match outcome
    case Ok(s) => rec.(output := Some(Obj(s)), status := Completed)
    case Err(e) => rec.(output := Some(Null), error := Some(e), status := Failed)
  }

  /**
   * What `runPipeline` returns or throws: 'Pipeline not found' for an
   * unknown id (any user's pipeline is found), the TypeError of line 68 for
   * a pipeline without steps, else the graph's result from `{ input }`.
   */
  function RunOutcome(pipelines: map<ToolId, Pipeline>, toolId: ToolId, input: Value, call: Call): Result<State>
  {
    if toolId !in pipelines then Err(PipelineMissing)
    else if pipelines[toolId].steps == [] then Err(LastStepUndefined)
    else Invoke(pipelines[toolId].steps, map["input" := input], call)
  }

  /**
   * A run of a stored pipeline whose steps are all exported helpers that
   * succeed returns the state holding the original input and one result per
   * step; a run that fails names the failing step.
   */
  lemma RunOutcomeOfStored(pipelines: map<ToolId, Pipeline>, toolId: ToolId, input: Value, call: Call)
    requires toolId in pipelines && pipelines[toolId].steps != []
    requires forall i :: 0 <= i < |pipelines[toolId].steps| ==> pipelines[toolId].steps[i].action != "input"
    ensures var steps := pipelines[toolId].steps;
      var r := RunOutcome(pipelines, toolId, input, call);
      && (r.Ok? ==> "input" in r.value && r.value["input"] == input && forall i :: 0 <= i < |steps| ==> steps[i].action in r.value)
      && (r.Err? ==>
            exists k :: 0 <= k < |steps| && Reached(steps, map["input" := input], call, k).Some? &&
              NodeCall(steps[k].action, input, steps[k].inputs, call).Err? &&
              r.error == StepFailure(steps[k].action, NodeCall(steps[k].action, input, steps[k].inputs, call).error))
  {
    var steps := pipelines[toolId].steps;
    var st := map["input" := input];
    InvokeSucceedsIff(steps, st, call);
    if Invoke(steps, st, call).Ok? {
      ReachedKeepsInput(steps, st, call, |steps|);
    } else {
      var k := FirstUnreached(steps, st, call, |steps|);
      ReachedKeepsInput(steps, st, call, k);
      InvokeFailsAtStep(steps, st, call, k);
    }
  }

  /**
   * `runPipeline` as written: the record of lines 30-35 has no `step` and no
   * `output` and the status 'running', which the Execution schema does not
   * list, so `Execution.create` rejects and the run stops before the
   * pipeline is looked up; `execution` is still undefined in the `catch`, so
   * nothing is recorded and the validation error is rethrown.
   */
  function RunAsWritten(pipelines: map<ToolId, Pipeline>, toolId: ToolId, userId: string, input: Value, call: Call): Result<State>
  {
    var errors := ExecutionSchemaErrors(userId, None, input, None, Running);
    if errors == [] then RunOutcome(pipelines, toolId, input, call) else Err(ValidationError(errors))
  }

  /** As written no run ever reaches the graph: every call is rejected by the schema, whatever the pipeline. */
  lemma RunAsWrittenAlwaysRejected(pipelines: map<ToolId, Pipeline>, toolId: ToolId, userId: string, input: Value, call: Call)
    requires userId != "" && input != Null
    ensures RunAsWritten(pipelines, toolId, userId, input, call) ==
      Err(ValidationError([StepMissing, OutputMissing, RunningNotInEnum]))
  {
    assert ExecutionSchemaErrors(userId, None, input, None, Running) == [StepMissing, OutputMissing, RunningNotInEnum];
  }

  /** The Tool collection. */
  class ToolStore {
    var pipelines: map<ToolId, Pipeline>

    constructor ()
      ensures pipelines == map[]
    {
      pipelines := map[];
    }
  }

  /** The Execution collection as runs use it: `create` appends, `findByIdAndUpdate` replaces by position. */
  class ExecutionStore {
    var records: seq<RunRecord>

    constructor ()
      ensures records == []
    {
      records := [];
    }

    method Create(rec: RunRecord) returns (id: nat)
      modifies this
      ensures id == |old(records)| && records == old(records) + [rec]
    {
      id := |records|;
      records := records + [rec];
    }

    method Update(id: nat, rec: RunRecord)
      requires id < |records|
      modifies this
      ensures records == old(records)[id := rec]
    {
      records := records[id := rec];
    }
  }

  /** The exported `PipelineService` instance over the two collections. */
  class PipelineService {
    const tools: ToolStore
    const executions: ExecutionStore

    constructor (tools: ToolStore, executions: ExecutionStore)
      ensures this.tools == tools && this.executions == executions
    {
      this.tools := tools;
      this.executions := executions;
    }

    /**
     * `createPipeline(userId, pipelineData)` (lines 7-22) storing the document
     * under the freshly generated `id`: the steps are stored numbered, and an
     * undefined `steps` fails before anything is stored.
     */
    method CreatePipeline(id: ToolId, userId: string, data: PipelineData) returns (r: Result<Pipeline>)
      requires id !in tools.pipelines
      modifies tools
      ensures data.steps.None? ==>
        r == Err("Failed to create pipeline: " + StepsUndefined) && tools.pipelines == old(tools.pipelines)
      ensures data.steps.Some? ==>
        && r == Ok(Pipeline(id, userId, data.name, data.description, NumberSteps(data.steps.value)))
        && tools.pipelines == old(tools.pipelines)[id := r.value]
        && Unnumbered(r.value.steps) == data.steps.value
    {
      if data.steps.None? {
        return Err("Failed to create pipeline: " + StepsUndefined);
      }
      var steps := NumberSteps(data.steps.value);
      UnnumberedNumberFrom(data.steps.value, 0);
      var tool := Pipeline(id, userId, data.name, data.description, steps);
      tools.pipelines := tools.pipelines[id := tool];
      r := Ok(tool);
    }

    /**
     * `runPipeline(toolId, userId, input)` (lines 24-96): one record is
     * opened as running and settled as completed with the result or as
     * failed with output null and the error, which is rethrown unchanged.
     */
    method RunPipeline(toolId: ToolId, userId: string, input: Value, call: Call) returns (r: Result<State>)
      modifies executions
      ensures r == RunOutcome(tools.pipelines, toolId, input, call)
      ensures executions.records == old(executions.records) + [Settled(Opened(toolId, userId, input), r)]
      ensures var rec := executions.records[|old(executions.records)|];
        && (r.Ok? ==> rec.status == Completed && rec.output == Some(Obj(r.value)) && rec.error == None)
        && (r.Err? ==> rec.status == Failed && rec.output == Some(Null) && rec.error == Some(r.error))
    {
      var rec := Opened(toolId, userId, input);
      var k := executions.Create(rec);
      if toolId !in tools.pipelines {
        r := Err(PipelineMissing);
      } else {
        var tool := tools.pipelines[toolId];
        var g := new StateGraph();
        var wired := Wire(g, tool.steps);
        if wired.Err? {
          r := Err(wired.error);
        } else {
          r := Invoke(tool.steps, map["input" := input], call);
        }
      }
      executions.Update(k, Settled(rec, r));
    }

    /** `deletePipeline(toolId, userId)` (lines 114-124): only the owner's pipeline is removed and returned. */
    method DeletePipeline(toolId: ToolId, userId: string) returns (r: Result<Pipeline>)
      modifies tools
      ensures var found := toolId in old(tools.pipelines) && old(tools.pipelines)[toolId].userId == userId;
        && (found ==> r == Ok(old(tools.pipelines)[toolId]) && tools.pipelines == old(tools.pipelines) - {toolId})
        && (!found ==> r == Err("Failed to delete pipeline: " + PipelineMissing) && tools.pipelines == old(tools.pipelines))
    {
      if toolId in tools.pipelines && tools.pipelines[toolId].userId == userId {
        r := Ok(tools.pipelines[toolId]);
        tools.pipelines := tools.pipelines - {toolId};
      } else {
        r := Err("Failed to delete pipeline: " + PipelineMissing);
      }
    }
  }
}
