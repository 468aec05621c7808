/**
 * The `POST /:id/run` handler of backend/routes/pipelineRoutes.js (lines
 * 112-269): find the user's pipeline, choose the input, run the steps in
 * order threading each output into the next step, record one execution per
 * step, and stop at the first failure.
 *
 * The four AI helpers the handler imports are an oracle from a call to its
 * outcome; the file upload is reduced to the path it produced.
 */
module PipelineRoutes {
  import opened Wrappers
  import opened JsText
  import opened ActionRegistry

  type ToolId = string

  /** One element of `tool.steps`. */
  datatype Step = Step(action: string, inputs: Value)

  /** A stored pipeline (backend/models/Tool.js), reduced to what the handler reads. */
  datatype Tool = Tool(id: ToolId, userId: string, steps: seq<Step>)

  /** The `status` values written; `Running` is the one PipelineService.js writes. */
  datatype Status = Pending | Running | Completed | Failed

  /** An Execution document (backend/models/Execution.js) without its timestamps. */
  datatype Execution = Execution(toolId: ToolId, userId: string, step: string, input: Value, output: Value, error: Option<string>, status: Status)

  /** The helper calls of the `switch` (lines 161-189), with their arguments. */
  datatype ActionCall =
    | PdfToText(path: Value)
    | ExtractSkills(text: Value)
    | SummarizeText(text: Value, options: Value)
    | ProcessDocument(document: Value, options: Value)

  /** What an awaited helper call gives: a value, `undefined`, or a rejection. */
  datatype Outcome = Produced(value: Value) | NoOutput | Threw(message: string)

  type Actions = ActionCall -> Outcome

  /** The call the `switch` makes for a step, or None for the `default` branch. */
  function Dispatch(step: Step, input: Value): (r: Option<ActionCall>)
    ensures r.None? <==> step.action !in {"pdf_to_text", "extract_skills", "summarize", "analyze_sentiment", "process_document"}
  {
    match step.action
    case "pdf_to_text" => Some(PdfToText(input))
    case "extract_skills" => Some(ExtractSkills(input))
    case "summarize" => Some(SummarizeText(input, step.inputs))
    case "analyze_sentiment" => Some(ProcessDocument(Obj(map["text" := input]), step.inputs))
    case "process_document" => Some(ProcessDocument(Obj(map["text" := input]), step.inputs))
    case _ => None
  }

  datatype StepResult = StepOk(output: Value) | StepFailed(error: string)

  /** The body of the inner `try` (lines 160-195): an unknown action and an `undefined` output are failures. */
  function RunStep(step: Step, input: Value, actions: Actions): StepResult
  {
    match Dispatch(step, input)
    case None => StepFailed("Unknown action: " + step.action)
    case Some(call) =>
      match actions(call)
      case Produced(v) => StepOk(v)
      case NoOutput => StepFailed("Step " + step.action + " produced no output")
      case Threw(m) => StepFailed(m)
  }

  /**
   * A step succeeds exactly when its action has a case in the `switch` and
   * the awaited helper gives a value, which is then the step's output. An
   * action without a case fails with "Unknown action: " and its name.
   */
  lemma RunStepSpec(step: Step, input: Value, actions: Actions)
    ensures RunStep(step, input, actions).StepOk? <==>
      step.action in {"pdf_to_text", "extract_skills", "summarize", "analyze_sentiment", "process_document"}
      && actions(Dispatch(step, input).value).Produced?
    ensures RunStep(step, input, actions).StepOk? ==>
      RunStep(step, input, actions).output == actions(Dispatch(step, input).value).value
    ensures step.action !in {"pdf_to_text", "extract_skills", "summarize", "analyze_sentiment", "process_document"} ==>
      RunStep(step, input, actions) == StepFailed("Unknown action: " + step.action)
  {
  }

  function CompletedRecord(toolId: ToolId, userId: string, step: Step, input: Value, output: Value): Execution
  {
    Execution(toolId, userId, step.action, input, output, None, Completed)
  }

  function FailedRecord(toolId: ToolId, userId: string, step: Step, input: Value, error: string): Execution
  {
    Execution(toolId, userId, step.action, input, Null, Some(error), Failed)
  }

  /** The records of a run, the failure that stopped it if any, and `finalOutput`. */
  datatype Trace = Trace(records: seq<Execution>, failure: Option<string>, finalOutput: Value)

  /**
   * The `for` loop of lines 150-234 as a recursion over the remaining steps,
   * from the current input and the current `finalOutput`.
   */
  function Execute(toolId: ToolId, userId: string, steps: seq<Step>, input: Value, finalOutput: Value, actions: Actions): Trace
    decreases |steps|
  {
    if steps == [] then Trace([], None, finalOutput)
    else
      match RunStep(steps[0], input, actions)
      case StepFailed(e) => Trace([FailedRecord(toolId, userId, steps[0], input, e)], Some(e), finalOutput)
      case StepOk(v) =>
        var rest := Execute(toolId, userId, steps[1..], v, v, actions);
        Trace([CompletedRecord(toolId, userId, steps[0], input, v)] + rest.records, rest.failure, rest.finalOutput)
  }

  /**
   * The loop's invariant: the whole run is the records written so far
   * followed by the run of the steps from `i` on, from the current input.
   */
  predicate Resumes(toolId: ToolId, userId: string, steps: seq<Step>, input: Value, actions: Actions,
                    i: nat, written: seq<Execution>, current: Value, finalOutput: Value)
  {
    && i <= |steps|
    && var rest := Execute(toolId, userId, steps[i..], current, finalOutput, actions);
       Execute(toolId, userId, steps, input, Null, actions) == Trace(written + rest.records, rest.failure, rest.finalOutput)
  }

  /** One turn of the loop: a failing step ends the run with its record, a succeeding one moves the invariant on. */
  lemma ResumesAdvance(toolId: ToolId, userId: string, steps: seq<Step>, input: Value, actions: Actions,
                       i: nat, written: seq<Execution>, current: Value, finalOutput: Value)
    requires Resumes(toolId, userId, steps, input, actions, i, written, current, finalOutput) && i < |steps|
    ensures var r := RunStep(steps[i], current, actions);
      && (r.StepFailed? ==>
            Execute(toolId, userId, steps, input, Null, actions) ==
              Trace(written + [FailedRecord(toolId, userId, steps[i], current, r.error)], Some(r.error), finalOutput))
      && (r.StepOk? ==>
            Resumes(toolId, userId, steps, input, actions, i + 1,
                    written + [CompletedRecord(toolId, userId, steps[i], current, r.output)], r.output, r.output))
  {
    assert steps[i..][1..] == steps[i + 1..];
    var r := RunStep(steps[i], current, actions);
    if r.StepOk? {
      var c := CompletedRecord(toolId, userId, steps[i], current, r.output);
      var rest := Execute(toolId, userId, steps[i + 1..], r.output, r.output, actions);
      assert written + ([c] + rest.records) == (written + [c]) + rest.records;
    }
  }

  /** After the last step the run has nothing left: the records written are all of them. */
  lemma ResumesAtEnd(toolId: ToolId, userId: string, steps: seq<Step>, input: Value, actions: Actions,
                     written: seq<Execution>, current: Value, finalOutput: Value)
    requires Resumes(toolId, userId, steps, input, actions, |steps|, written, current, finalOutput)
    ensures Execute(toolId, userId, steps, input, Null, actions) == Trace(written, None, finalOutput)
  {
    assert steps[|steps|..] == [];
    assert written + [] == written;
  }

  /** Every step before `k` succeeds when run on the output of the one before it. */
  predicate SucceedsUpTo(steps: seq<Step>, input: Value, actions: Actions, k: nat)
    requires k <= |steps|
    decreases k
  {
    k == 0 || (RunStep(steps[0], input, actions).StepOk?
               && SucceedsUpTo(steps[1..], RunStep(steps[0], input, actions).output, actions, k - 1))
  }

  /** The input step `k` receives once the steps before it have succeeded. */
  function InputAt(steps: seq<Step>, input: Value, actions: Actions, k: nat): Value
    requires k <= |steps| && SucceedsUpTo(steps, input, actions, k)
    decreases k
  {
    if k == 0 then input else InputAt(steps[1..], RunStep(steps[0], input, actions).output, actions, k - 1)
  }

  /** One record per step attempted, in step order, each naming its step, pipeline and user. */
  lemma {:induction false} RecordsNameSteps(toolId: ToolId, userId: string, steps: seq<Step>, input: Value, finalOutput: Value, actions: Actions)
    ensures var t := Execute(toolId, userId, steps, input, finalOutput, actions);
      && |t.records| <= |steps|
      && (steps != [] <==> t.records != [])
      && forall i :: 0 <= i < |t.records| ==>
           t.records[i].step == steps[i].action && t.records[i].toolId == toolId && t.records[i].userId == userId
    decreases |steps|
  {
    if steps != [] && RunStep(steps[0], input, actions).StepOk? {
      var v := RunStep(steps[0], input, actions).output;
      RecordsNameSteps(toolId, userId, steps[1..], v, v, actions);
      var rest := Execute(toolId, userId, steps[1..], v, v, actions);
      var t := Execute(toolId, userId, steps, input, finalOutput, actions);
      forall i | 0 <= i < |t.records|
        ensures t.records[i].step == steps[i].action && t.records[i].toolId == toolId && t.records[i].userId == userId
      {
        if i > 0 {
          assert t.records[i] == rest.records[i - 1];
        }
      }
    }
  }

  /**
   * The first step receives the run's input, every record but the last is
   * completed, and each step's input is the output of the step before it.
   */
  lemma {:induction false} RunThreadsOutputs(toolId: ToolId, userId: string, steps: seq<Step>, input: Value, finalOutput: Value, actions: Actions)
    ensures var t := Execute(toolId, userId, steps, input, finalOutput, actions);
      && (t.records != [] ==> t.records[0].input == input)
      && forall i :: 0 <= i < |t.records| - 1 ==>
           t.records[i].status == Completed && t.records[i + 1].input == t.records[i].output
    decreases |steps|
  {
    if steps != [] && RunStep(steps[0], input, actions).StepOk? {
      var v := RunStep(steps[0], input, actions).output;
      RunThreadsOutputs(toolId, userId, steps[1..], v, v, actions);
      var rest := Execute(toolId, userId, steps[1..], v, v, actions);
      var t := Execute(toolId, userId, steps, input, finalOutput, actions);
      forall i | 0 <= i < |t.records| - 1
        ensures t.records[i].status == Completed && t.records[i + 1].input == t.records[i].output
      {
        assert t.records[i + 1] == rest.records[i];
        if i > 0 {
          assert t.records[i] == rest.records[i - 1];
        }
      }
    }
  }

  /**
   * A run without failure completes every step and ends with the last
   * output (the initial `finalOutput` when there are no steps); a failed run
   * ends with exactly one failed record carrying the error and a null output.
   */
  lemma {:induction false} RunEnds(toolId: ToolId, userId: string, steps: seq<Step>, input: Value, finalOutput: Value, actions: Actions)
    ensures var t := Execute(toolId, userId, steps, input, finalOutput, actions);
      && (t.failure.None? ==>
            && |t.records| == |steps|
            && (forall i :: 0 <= i < |t.records| ==> t.records[i].status == Completed && t.records[i].error.None?)
            && t.finalOutput == (if steps == [] then finalOutput else t.records[|steps| - 1].output))
      && (t.failure.Some? ==>
            && t.records != []
            && t.records[|t.records| - 1] == Execution(toolId, userId, t.records[|t.records| - 1].step,
                 t.records[|t.records| - 1].input, Null, t.failure, Failed))
    decreases |steps|
  {
    if steps != [] && RunStep(steps[0], input, actions).StepOk? {
      var v := RunStep(steps[0], input, actions).output;
      RunEnds(toolId, userId, steps[1..], v, v, actions);
      var rest := Execute(toolId, userId, steps[1..], v, v, actions);
      var t := Execute(toolId, userId, steps, input, finalOutput, actions);
      assert t.records == [CompletedRecord(toolId, userId, steps[0], input, v)] + rest.records;
      if t.failure.None? {
        forall i | 0 <= i < |t.records| ensures t.records[i].status == Completed && t.records[i].error.None? {
          if i > 0 {
            assert t.records[i] == rest.records[i - 1];
          }
        }
      }
    }
  }

  /**
   * A failure at step `k`, after `k` successful steps, leaves exactly `k`
   * completed records followed by one failed record for step `k`, with the
   * input it received and its error: no later step runs.
   */
  lemma {:induction false} FailureStopsRun(
    toolId: ToolId, userId: string, steps: seq<Step>, input: Value, finalOutput: Value, actions: Actions, k: nat)
    requires k < |steps| && SucceedsUpTo(steps, input, actions, k)
    requires RunStep(steps[k], InputAt(steps, input, actions, k), actions).StepFailed?
    ensures var t := Execute(toolId, userId, steps, input, finalOutput, actions);
      var e := RunStep(steps[k], InputAt(steps, input, actions, k), actions).error;
      && |t.records| == k + 1
      && t.failure == Some(e)
      && (forall i :: 0 <= i < k ==> t.records[i].status == Completed)
      && t.records[k] == FailedRecord(toolId, userId, steps[k], InputAt(steps, input, actions, k), e)
    decreases k
  {
    if k > 0 {
      var v := RunStep(steps[0], input, actions).output;
      FailureStopsRun(toolId, userId, steps[1..], v, v, actions, k - 1);
      var rest := Execute(toolId, userId, steps[1..], v, v, actions);
      var t := Execute(toolId, userId, steps, input, finalOutput, actions);
      assert t.records == [CompletedRecord(toolId, userId, steps[0], input, v)] + rest.records;
      assert steps[1..][k - 1] == steps[k];
      forall i | 0 <= i < k ensures t.records[i].status == Completed {
        if i > 0 {
          assert t.records[i] == rest.records[i - 1];
        }
      }
    }
  }

  /** A run completes without failure exactly when every step succeeds on its threaded input. */
  lemma {:induction false} RunSucceedsIff(
    toolId: ToolId, userId: string, steps: seq<Step>, input: Value, finalOutput: Value, actions: Actions)
    ensures Execute(toolId, userId, steps, input, finalOutput, actions).failure.None? <==>
      SucceedsUpTo(steps, input, actions, |steps|)
    decreases |steps|
  {
    if steps != [] && RunStep(steps[0], input, actions).StepOk? {
      var v := RunStep(steps[0], input, actions).output;
      RunSucceedsIff(toolId, userId, steps[1..], v, v, actions);
    }
  }

  /** `req.user?._id || 'default'`. */
  function UserOf(user: Option<string>): (r: string)
    ensures r != ""
  {
    if user.Some? && user.value != "" then user.value else "default"
  }

  /** JavaScript truthiness of a request-body value. */
  predicate Truthy(v: Value)
  {
    match v
    case Str(s) => s != ""
    case Num(n) => n != 0
    case Bool(b) => b
    case Null => false
    case Arr(_) => true
    case Obj(_) => true
  }

  /** `req.file`, reduced to its `path` ("" when the upload left none). */
  datatype Upload = Upload(path: string)

  /**
   * The input selection of lines 126-143: an uploaded file's path wins over
   * `req.body.input`. The error is the 400 response's text.
   */
  function SelectInput(file: Option<Upload>, bodyInput: Option<Value>): (r: Result<Value>)
    ensures file.Some? && file.value.path != "" ==> r == Ok(Str(file.value.path))
    ensures file.Some? && file.value.path == "" ==> r == Err("File upload failed")
    ensures file.None? && bodyInput.Some? && Truthy(bodyInput.value) ==> r == Ok(bodyInput.value)
    ensures file.None? && (bodyInput.None? || !Truthy(bodyInput.value)) ==> r == Err("No input provided")
  {
    if file.Some? then
      if file.value.path == "" then Err("File upload failed") else Ok(Str(file.value.path))
    else if bodyInput.Some? && Truthy(bodyInput.value) then Ok(bodyInput.value)
    else Err("No input provided")
  }

  datatype Body = Executed(message: string, executions: seq<Execution>) | ErrorBody(error: string)

  datatype Response = Response(code: int, body: Body)

  /** The final record of lines 238-245: the run's own input and its final output. */
  function FinalRecord(toolId: ToolId, userId: string, input: Value, finalOutput: Value): Execution
  {
    Execution(toolId, userId, "pipeline_complete", input, finalOutput, None, Completed)
  }

  /** What the handler answers and which records it saves, in order. */
  datatype Handled = Handled(response: Response, saved: seq<Execution>)

  /** The whole handler over the stored pipelines; a pipeline belongs to the user it was created for. */
  function Route(tools: map<ToolId, Tool>, id: ToolId, userId: string, file: Option<Upload>, bodyInput: Option<Value>,
                 actions: Actions): Handled
  {
    if id !in tools || tools[id].userId != userId then Handled(Response(404, ErrorBody("Pipeline not found")), [])
    else
      match SelectInput(file, bodyInput)
      case Err(e) => Handled(Response(400, ErrorBody(e)), [])
      case Ok(input) =>
        var t := Execute(id, userId, tools[id].steps, input, Null, actions);
        if t.failure.Some? then Handled(Response(500, ErrorBody(t.failure.value)), t.records)
        else
          var all := t.records + [FinalRecord(id, userId, input, t.finalOutput)];
          Handled(Response(200, Executed("Pipeline executed successfully", all)), all)
  }

  /** Without a pipeline of this user the answer is 404 and no step runs. */
  lemma RouteNotFound(tools: map<ToolId, Tool>, id: ToolId, userId: string, file: Option<Upload>, bodyInput: Option<Value>, actions: Actions)
    requires id !in tools || tools[id].userId != userId
    ensures Route(tools, id, userId, file, bodyInput, actions) == Handled(Response(404, ErrorBody("Pipeline not found")), [])
  {
  }

  /** Without a usable input the answer is 400 with the selection's error and no step runs. */
  lemma RouteRejectsInput(tools: map<ToolId, Tool>, id: ToolId, userId: string, file: Option<Upload>, bodyInput: Option<Value>, actions: Actions)
    requires id in tools && tools[id].userId == userId
    requires SelectInput(file, bodyInput).Err?
    ensures Route(tools, id, userId, file, bodyInput, actions) ==
      Handled(Response(400, ErrorBody(SelectInput(file, bodyInput).error)), [])
  {
  }

  /**
   * A failure at step `k` answers 500 with the step's error, and the saved
   * records are the `k` completed ones and the failed one; no
   * 'pipeline_complete' record is written.
   */
  lemma {:induction false} RouteFailsAtStep(
    tools: map<ToolId, Tool>, id: ToolId, userId: string, file: Option<Upload>, bodyInput: Option<Value>, actions: Actions, k: nat)
    requires id in tools && tools[id].userId == userId && SelectInput(file, bodyInput).Ok?
    requires k < |tools[id].steps|
    requires SucceedsUpTo(tools[id].steps, SelectInput(file, bodyInput).value, actions, k)
    requires RunStep(tools[id].steps[k], InputAt(tools[id].steps, SelectInput(file, bodyInput).value, actions, k), actions).StepFailed?
    ensures var h := Route(tools, id, userId, file, bodyInput, actions);
      var steps := tools[id].steps;
      var input := SelectInput(file, bodyInput).value;
      var e := RunStep(steps[k], InputAt(steps, input, actions, k), actions).error;
      && h.response == Response(500, ErrorBody(e))
      && |h.saved| == k + 1
      && (forall i :: 0 <= i < k ==> h.saved[i].status == Completed && h.saved[i].step == steps[i].action)
      && h.saved[k] == FailedRecord(id, userId, steps[k], InputAt(steps, input, actions, k), e)
  {
    var steps := tools[id].steps;
    var input := SelectInput(file, bodyInput).value;
    FailureStopsRun(id, userId, steps, input, Null, actions, k);
    RecordsNameSteps(id, userId, steps, input, Null, actions);
  }

  /**
   * When every step succeeds the answer lists one completed record per
   * step, in step order, then the 'pipeline_complete' record with the run's
   * own input and the last step's output (null without steps).
   */
  lemma {:induction false} RouteCompletes(
    tools: map<ToolId, Tool>, id: ToolId, userId: string, file: Option<Upload>, bodyInput: Option<Value>, actions: Actions)
    requires id in tools && tools[id].userId == userId && SelectInput(file, bodyInput).Ok?
    requires SucceedsUpTo(tools[id].steps, SelectInput(file, bodyInput).value, actions, |tools[id].steps|)
    ensures var h := Route(tools, id, userId, file, bodyInput, actions);
      var steps := tools[id].steps;
      var input := SelectInput(file, bodyInput).value;
      && h.response.code == 200 && h.response.body.Executed?
      && h.response.body.executions == h.saved
      && |h.saved| == |steps| + 1
      && (forall i :: 0 <= i < |steps| ==> h.saved[i].status == Completed && h.saved[i].step == steps[i].action)
      && h.saved[|steps|] == FinalRecord(id, userId, input, if steps == [] then Null else h.saved[|steps| - 1].output)
  {
    var steps := tools[id].steps;
    var input := SelectInput(file, bodyInput).value;
    RunSucceedsIff(id, userId, steps, input, Null, actions);
    RunEnds(id, userId, steps, input, Null, actions);
    RecordsNameSteps(id, userId, steps, input, Null, actions);
  }

  const UserIdMissing := "userId: Path `userId` is required."
  const StepMissing := "step: Path `step` is required."
  const InputMissing := "input: Path `input` is required."
  const OutputMissing := "output: Path `output` is required."
  const RunningNotInEnum := "status: `running` is not a valid enum value for path `status`."

  /**
   * The validation messages of the Execution schema (backend/models/Execution.js)
   * for a document, in Mongoose's order: the required paths in schema order,
   * then the `status` enum, which lists 'pending', 'completed' and 'failed'.
   * A required string rejects "", a required mixed value rejects null.
   */
  function ExecutionSchemaErrors(userId: string, step: Option<string>, input: Value, output: Option<Value>, status: Status): seq<string>
  {
    (if userId == "" then [UserIdMissing] else []) +
    (if step.None? || step.value == "" then [StepMissing] else []) +
    (if input == Null then [InputMissing] else []) +
    (if output.None? || output.value == Null then [OutputMissing] else []) +
    (if status.Running? then [RunningNotInEnum] else [])
  }

  /** The message of the `ValidationError` that `save` or `create` throws. */
  function ValidationError(errors: seq<string>): string
  {
    ValidationFailed("Execution", errors)
  }

  function RecordErrors(e: Execution): seq<string>
  {
    ExecutionSchemaErrors(e.userId, Some(e.step), e.input, Some(e.output), e.status)
  }

  /** "Execution validation failed: output: Path `output` is required." */
  const OutputRequired := ValidationError([OutputMissing])

  /** The failed record of lines 222-230 never passes the schema: its output is null. */
  lemma FailedRecordRejected(toolId: ToolId, userId: string, step: Step, input: Value, error: string)
    requires userId != "" && step.action != "" && input != Null
    ensures RecordErrors(FailedRecord(toolId, userId, step, input, error)) == [OutputMissing]
    ensures ValidationError(RecordErrors(FailedRecord(toolId, userId, step, input, error))) == OutputRequired
  {
  }

  /**
   * The inner `catch` as written (lines 212-233): the failed record is saved
   * before the rethrow, so a rejected save throws the validation error
   * instead of the step's error and nothing is stored.
   */
  function CaughtAsWritten(toolId: ToolId, userId: string, step: Step, input: Value, error: string, finalOutput: Value): Trace
  {
    var f := FailedRecord(toolId, userId, step, input, error);
    if RecordErrors(f) == [] then Trace([f], Some(error), finalOutput)
    else Trace([], Some(ValidationError(RecordErrors(f))), finalOutput)
  }

  /** The step loop as written: every `execution.save()` is subject to the schema. */
  function ExecuteAsWritten(toolId: ToolId, userId: string, steps: seq<Step>, input: Value, finalOutput: Value, actions: Actions): Trace
    decreases |steps|
  {
    if steps == [] then Trace([], None, finalOutput)
    else
      match RunStep(steps[0], input, actions)
      case StepFailed(e) => CaughtAsWritten(toolId, userId, steps[0], input, e, finalOutput)
      case StepOk(v) =>
        var c := CompletedRecord(toolId, userId, steps[0], input, v);
        if RecordErrors(c) == [] then
          var rest := ExecuteAsWritten(toolId, userId, steps[1..], v, v, actions);
          Trace([c] + rest.records, rest.failure, rest.finalOutput)
        else CaughtAsWritten(toolId, userId, steps[0], input, ValidationError(RecordErrors(c)), finalOutput)
  }

  /** The handler as written: the step loop and the final record's save both go through the schema. */
  function RouteAsWritten(tools: map<ToolId, Tool>, id: ToolId, userId: string, file: Option<Upload>, bodyInput: Option<Value>,
                         actions: Actions): Handled
  {
    if id !in tools || tools[id].userId != userId then Handled(Response(404, ErrorBody("Pipeline not found")), [])
    else
      match SelectInput(file, bodyInput)
      case Err(e) => Handled(Response(400, ErrorBody(e)), [])
      case Ok(input) =>
        var t := ExecuteAsWritten(id, userId, tools[id].steps, input, Null, actions);
        if t.failure.Some? then Handled(Response(500, ErrorBody(t.failure.value)), t.records)
        else
          var f := FinalRecord(id, userId, input, t.finalOutput);
          if RecordErrors(f) != [] then Handled(Response(500, ErrorBody(ValidationError(RecordErrors(f)))), t.records)
          else
            var all := t.records + [f];
            Handled(Response(200, Executed("Pipeline executed successfully", all)), all)
  }

  /** The `catch` as written over a well-formed failed record: the save rejects it and nothing is stored. */
  lemma CaughtRejected(toolId: ToolId, userId: string, step: Step, input: Value, error: string, finalOutput: Value)
    requires userId != "" && step.action != "" && input != Null
    ensures CaughtAsWritten(toolId, userId, step, input, error, finalOutput) == Trace([], Some(OutputRequired), finalOutput)
  {
    FailedRecordRejected(toolId, userId, step, input, error);
  }

  /** As written, a run that reaches a failing step stops with the schema's message and stores no failed record. */
  lemma {:induction false} ExecuteAsWrittenHidesFailure(
    toolId: ToolId, userId: string, steps: seq<Step>, input: Value, finalOutput: Value, actions: Actions)
    requires userId != "" && input != Null
    requires forall i :: 0 <= i < |steps| ==> steps[i].action != ""
    requires Execute(toolId, userId, steps, input, finalOutput, actions).failure.Some?
    ensures var t := ExecuteAsWritten(toolId, userId, steps, input, finalOutput, actions);
      && t.failure == Some(OutputRequired)
      && forall i :: 0 <= i < |t.records| ==> t.records[i].status == Completed
    decreases |steps|
  {
    var r := RunStep(steps[0], input, actions);
    var t := ExecuteAsWritten(toolId, userId, steps, input, finalOutput, actions);
    if r.StepFailed? {
      CaughtRejected(toolId, userId, steps[0], input, r.error, finalOutput);
      assert t == CaughtAsWritten(toolId, userId, steps[0], input, r.error, finalOutput);
    } else {
      var c := CompletedRecord(toolId, userId, steps[0], input, r.output);
      if RecordErrors(c) == [] {
        assert r.output != Null;
        var rest := ExecuteAsWritten(toolId, userId, steps[1..], r.output, r.output, actions);
        assert Execute(toolId, userId, steps, input, finalOutput, actions).failure ==
          Execute(toolId, userId, steps[1..], r.output, r.output, actions).failure;
        ExecuteAsWrittenHidesFailure(toolId, userId, steps[1..], r.output, r.output, actions);
        assert t == Trace([c] + rest.records, rest.failure, rest.finalOutput);
      } else {
        CaughtRejected(toolId, userId, steps[0], input, ValidationError(RecordErrors(c)), finalOutput);
        assert t == CaughtAsWritten(toolId, userId, steps[0], input, ValidationError(RecordErrors(c)), finalOutput);
      }
    }
  }

  /**
   * Where the handler fails at a step, the route as written answers 500 with
   * the schema's "output is required" message instead of the step's error,
   * and no failed record is stored.
   */
  lemma RouteAsWrittenHidesStepError(
    tools: map<ToolId, Tool>, id: ToolId, userId: string, file: Option<Upload>, bodyInput: Option<Value>, actions: Actions)
    requires userId != "" && id in tools && tools[id].userId == userId && SelectInput(file, bodyInput).Ok?
    requires forall i :: 0 <= i < |tools[id].steps| ==> tools[id].steps[i].action != ""
    requires Route(tools, id, userId, file, bodyInput, actions).response.code == 500
    ensures RouteAsWritten(tools, id, userId, file, bodyInput, actions).response == Response(500, ErrorBody(OutputRequired))
    ensures forall i :: 0 <= i < |RouteAsWritten(tools, id, userId, file, bodyInput, actions).saved| ==>
      RouteAsWritten(tools, id, userId, file, bodyInput, actions).saved[i].status != Failed
  {
    var input := SelectInput(file, bodyInput).value;
    SelectedIsTruthy(file, bodyInput);
    ExecuteAsWrittenHidesFailure(id, userId, tools[id].steps, input, Null, actions);
  }

  /** An input the handler accepts is never null. */
  lemma SelectedIsTruthy(file: Option<Upload>, bodyInput: Option<Value>)
    requires SelectInput(file, bodyInput).Ok?
    ensures SelectInput(file, bodyInput).value != Null
  {
  }

  /** As written, a pipeline without steps answers 500 where the intended handler answers 200: its final record's output is null. */
  lemma RouteAsWrittenRejectsEmptyPipeline(
    tools: map<ToolId, Tool>, id: ToolId, userId: string, file: Option<Upload>, bodyInput: Option<Value>, actions: Actions)
    requires userId != "" && id in tools && tools[id].userId == userId && SelectInput(file, bodyInput).Ok?
    requires tools[id].steps == []
    ensures Route(tools, id, userId, file, bodyInput, actions).response.code == 200
    ensures RouteAsWritten(tools, id, userId, file, bodyInput, actions) == Handled(Response(500, ErrorBody(OutputRequired)), [])
  {
    var input := SelectInput(file, bodyInput).value;
    SelectedIsTruthy(file, bodyInput);
    assert RecordErrors(FinalRecord(id, userId, input, Null)) == [OutputMissing];
  }

  /** The Execution collection: `execution.save()` appends a document. */
  class ExecutionLog {
    var saved: seq<Execution>

    constructor ()
      ensures saved == []
    {
      saved := [];
    }

    method Save(e: Execution)
      modifies this
      ensures saved == old(saved) + [e]
    {
      saved := saved + [e];
    }
  }

  /** The router over the stored pipelines and the Execution collection it writes. */
  class PipelineRouter {
    const tools: map<ToolId, Tool>
    const log: ExecutionLog

    constructor (tools: map<ToolId, Tool>, log: ExecutionLog)
      ensures this.tools == tools && this.log == log
    {
      this.tools := tools;
      this.log := log;
    }

    /**
     * The step loop of lines 160-236: each step runs on the previous step's
     * output and its record is saved before the next one starts; the first
     * failure saves its record and stops the loop.
     */
    method RunSteps(id: ToolId, userId: string, steps: seq<Step>, input: Value, actions: Actions) returns (t: Trace)
      modifies log
      ensures t == Execute(id, userId, steps, input, Null, actions)
      ensures log.saved == old(log.saved) + t.records
    {
      var executions: seq<Execution> := [];
      var currentInput := input;
      var finalOutput := Null;
      assert steps[0..] == steps;
      for i := 0 to |steps|
        invariant log.saved == old(log.saved) + executions
        invariant Resumes(id, userId, steps, input, actions, i, executions, currentInput, finalOutput)
      {
        var step := steps[i];
        var result := RunStep(step, currentInput, actions);
        ResumesAdvance(id, userId, steps, input, actions, i, executions, currentInput, finalOutput);
        if result.StepFailed? {
          var failed := FailedRecord(id, userId, step, currentInput, result.error);
          log.Save(failed);
          executions := executions + [failed];
          return Trace(executions, Some(result.error), finalOutput);
        }
        var completed := CompletedRecord(id, userId, step, currentInput, result.output);
        log.Save(completed);
        executions := executions + [completed];
        currentInput := result.output;
        finalOutput := result.output;
      }
      ResumesAtEnd(id, userId, steps, input, actions, executions, currentInput, finalOutput);
      t := Trace(executions, None, finalOutput);
    }

    /**
     * `POST /:id/run` (lines 112-269): the answer and the records saved are
     * those of `Route`, and the saved records are exactly the ones the
     * answer lists on success.
     */
    method RunPipeline(id: ToolId, user: Option<string>, file: Option<Upload>, bodyInput: Option<Value>, actions: Actions)
      returns (res: Response)
      modifies log
      ensures res == Route(tools, id, UserOf(user), file, bodyInput, actions).response
      ensures log.saved == old(log.saved) + Route(tools, id, UserOf(user), file, bodyInput, actions).saved
    {
      var userId := UserOf(user);
      if id !in tools || tools[id].userId != userId {
        return Response(404, ErrorBody("Pipeline not found"));
      }
      var selected := SelectInput(file, bodyInput);
      if selected.Err? {
        return Response(400, ErrorBody(selected.error));
      }
      var input := selected.value;
      var t := RunSteps(id, userId, tools[id].steps, input, actions);
      if t.failure.Some? {
        return Response(500, ErrorBody(t.failure.value));
      }
      var final := FinalRecord(id, userId, input, t.finalOutput);
      log.Save(final);
      res := Response(200, Executed("Pipeline executed successfully", t.records + [final]));
    }
  }
}
