/**
 * The `AgentState` annotation of backend/services/LangGraphAgentService.js
 * (lines 11-28): the four channels a turn threads through the graph, the
 * partial updates a node returns, and the reducer that merges each channel.
 */
module AgentState {
  import opened Wrappers
  import opened Messages

  /** The `validation` channel. */
  datatype Validation = Validation(isValid: bool, violations: seq<string>, message: string)

  /** The `state` channel; `lastResponse` is null until a node sets it. */
  datatype ResponseState = ResponseState(lastResponse: Option<string>, messageCount: int)

  datatype State = State(messages: seq<Message>, input: string, state: ResponseState, validation: Validation)

  /** An object spread into `state`: a field is None when the object does not have it. */
  datatype ResponsePatch = ResponsePatch(lastResponse: Option<Option<string>>, messageCount: Option<int>)

  /** An object spread into `validation`. */
  datatype ValidationPatch = ValidationPatch(isValid: Option<bool>, violations: Option<seq<string>>, message: Option<string>)

  /** A node's return value: a channel is None when the node does not write it. */
  datatype Update = Update(
    messages: Option<seq<Message>>,
    input: Option<string>,
    state: Option<ResponsePatch>,
    validation: Option<ValidationPatch>)

  /** The defaults of lines 14, 18, 22 and 26. */
  function Default(): State
  {
    State([], "", ResponseState(None, 0), Validation(true, [], ""))
  }

  /** `(x, y) => (y ? [...x, ...y] : x)`: the new list always extends the old one. */
  function ReduceMessages(x: seq<Message>, y: Option<seq<Message>>): (r: seq<Message>)
    ensures x <= r
    ensures y.None? ==> r == x
    ensures y.Some? ==> r[|x|..] == y.value
  {
    if y.Some? then x + y.value else x
  }

  /** `(x, y) => y || x`: an empty or absent update keeps the old input. */
  function ReduceInput(x: string, y: Option<string>): (r: string)
    ensures (y.None? || y.value == "") ==> r == x
    ensures (y.Some? && y.value != "") ==> r == y.value
  {
    if y.Some? && y.value != "" then y.value else x
  }

  /** `(x, y) => ({ ...x, ...y })` on the `state` channel. */
  function MergeResponse(x: ResponseState, y: Option<ResponsePatch>): (r: ResponseState)
    ensures r.lastResponse == (if y.Some? && y.value.lastResponse.Some? then y.value.lastResponse.value else x.lastResponse)
    ensures r.messageCount == (if y.Some? && y.value.messageCount.Some? then y.value.messageCount.value else x.messageCount)
  {
    match y
    case None => x
    case Some(p) =>
      ResponseState(
        if p.lastResponse.Some? then p.lastResponse.value else x.lastResponse,
        if p.messageCount.Some? then p.messageCount.value else x.messageCount)
  }

  /** `(x, y) => ({ ...x, ...y })` on the `validation` channel. */
  function MergeValidation(x: Validation, y: Option<ValidationPatch>): (r: Validation)
    ensures r.isValid == (if y.Some? && y.value.isValid.Some? then y.value.isValid.value else x.isValid)
    ensures r.violations == (if y.Some? && y.value.violations.Some? then y.value.violations.value else x.violations)
    ensures r.message == (if y.Some? && y.value.message.Some? then y.value.message.value else x.message)
  {
    match y
    case None => x
    case Some(p) =>
      Validation(
        if p.isValid.Some? then p.isValid.value else x.isValid,
        if p.violations.Some? then p.violations.value else x.violations,
        if p.message.Some? then p.message.value else x.message)
  }

  /** The graph applying a node's update, channel by channel. */
  function Apply(s: State, u: Update): State
  {
    State(
      ReduceMessages(s.messages, u.messages),
      ReduceInput(s.input, u.input),
      MergeResponse(s.state, u.state),
      MergeValidation(s.validation, u.validation))
  }

  /** A patch that sets every field of `validation`. */
  function SetValidation(v: Validation): ValidationPatch
  {
    ValidationPatch(Some(v.isValid), Some(v.violations), Some(v.message))
  }

  /** A patch that sets both fields of `state`. */
  function SetResponse(lastResponse: Option<string>, messageCount: int): ResponsePatch
  {
    ResponsePatch(Some(lastResponse), Some(messageCount))
  }

  /** The state `graph.invoke` starts from: the invocation object applied to the defaults. */
  function Initial(messages: seq<Message>, input: string): (s: State)
    ensures s.messages == messages && s.input == input
    ensures s.state == ResponseState(None, |messages|)
    ensures s.validation == Validation(true, [], "")
  {
    Apply(Default(), Update(Some(messages), Some(input), Some(SetResponse(None, |messages|)),
                            Some(SetValidation(Validation(true, [], "")))))
  }

  /** Messages are only ever appended: no update can shorten or rewrite the list. */
  lemma MessagesOnlyGrow(s: State, u: Update)
    ensures s.messages <= Apply(s, u).messages
    ensures |Apply(s, u).messages| == |s.messages| + (if u.messages.Some? then |u.messages.value| else 0)
  {
  }

  /** A full patch replaces the channel outright; an update that leaves a channel out keeps it. */
  lemma FullPatchesReplace(s: State, v: Validation, last: Option<string>, count: int)
    ensures Apply(s, Update(None, None, None, Some(SetValidation(v)))) == s.(validation := v)
    ensures Apply(s, Update(None, None, Some(SetResponse(last, count)), None)) == s.(state := ResponseState(last, count))
  {
  }
}
