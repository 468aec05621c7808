/**
 * The `process` node of backend/services/LangGraphAgentService.js (lines
 * 313-417) and the two-node graph `validate -> process -> END` it closes
 * (lines 420-424). The node branches exactly one way: an empty input gets the
 * guard message, a refused input gets the refusal text, and anything else
 * goes to the model, whose reply (or, on a failure or an empty reply, a fixed
 * apology) ends the turn as a human/ai pair that is also saved to memory.
 */
module ProcessNode {
  import opened Wrappers
  import opened JsText
  import opened AgentModels
  import opened Messages
  import opened AgentState
  import opened Guardrails

  const GuardMessage := "Please provide a valid message"
  const ApologyMessage := "I apologize, but I encountered an error processing your request. Please try again."

  /** The node's update, and the (input, output) pair it hands to `memory.saveContext`, if any. */
  datatype ProcessOutcome = ProcessOutcome(update: Update, saved: Option<(string, string)>)

  /** `messages.filter(msg => msg && msg.content && ...)`: the conversion that follows keeps each message as it is. */
  function ValidMessages(ms: seq<Message>): seq<Message>
  {
    if ms == [] then []
    else if ms[0].content != "" then [ms[0]] + ValidMessages(ms[1..])
    else ValidMessages(ms[1..])
  }

  /** The filter keeps one message per message with a content. */
  lemma {:induction false} ValidMessagesCount(ms: seq<Message>)
    ensures |ValidMessages(ms)| == |set i | 0 <= i < |ms| && ms[i].content != ""|
  {
    if ms != [] {
      ValidMessagesCount(ms[1..]);
      assert forall i :: 1 <= i < |ms| ==> ms[i] == ms[1..][i - 1];
      CountPositionsCons(set i | 0 <= i < |ms| && ms[i].content != "",
        set i | 0 <= i < |ms[1..]| && ms[1..][i].content != "", |ms|, ms[0].content != "");
    }
  }

  /** The filter keeps exactly the messages with a content, each once, in their order. */
  lemma {:induction false} ValidMessagesSpec(ms: seq<Message>)
    ensures var r := ValidMessages(ms);
      && |r| == |set i | 0 <= i < |ms| && ms[i].content != ""|
      && (forall i :: 0 <= i < |r| ==> r[i].content != "")
      && (forall i :: 0 <= i < |ms| && ms[i].content != "" ==> ms[i] in r)
      && Subseq(r, ms)
  {
    ValidMessagesCount(ms);
    if ms != [] {
      var rest := ValidMessages(ms[1..]);
      ValidMessagesSpec(ms[1..]);
      assert ms == [ms[0]] + ms[1..];
      assert forall i :: 1 <= i < |ms| ==> ms[i] == ms[1..][i - 1];
      if ms[0].content != "" {
        SubseqCons(ms[0], rest, ms[1..]);
      } else {
        SubseqSkip(ms[0], rest, ms[1..]);
      }
    }
  }

  function Chats(ms: seq<Message>): (r: seq<PromptMessage>)
    ensures |r| == |ms|
    ensures forall i :: 0 <= i < |ms| ==> r[i] == Chat(ms[i])
  {
    if ms == [] then [] else [Chat(ms[0])] + Chats(ms[1..])
  }

  /**
   * `messageHistory` (lines 356-369): the role prompt rendered over the kept
   * messages, the kept messages themselves, and the trimmed input as a human turn.
   */
  function RoleRequest(agent: Agent, messages: seq<Message>, safeInput: string): seq<PromptMessage>
  {
    var valid := ValidMessages(messages);
    [System(RolePrompt(agent.name, agent.instructions, Transcript(valid), safeInput))] + Chats(valid) + [Chat(Human(safeInput))]
  }

  /** A node update that appends `added` and sets both fields of `state`. */
  function Reply(messages: seq<Message>, added: seq<Message>, last: string): Update
  {
    Update(Some(added), None, Some(SetResponse(Some(last), |messages| + |added|)), None)
  }

  /** The body of the process node over the state it receives. */
  function Process(agent: Agent, s: State, model: Model): ProcessOutcome
  {
    var safeInput := Trim(s.input);
    if safeInput == "" then
      ProcessOutcome(Reply(s.messages, [Ai(GuardMessage)], GuardMessage), None)
    else if !s.validation.isValid then
      ProcessOutcome(Reply(s.messages, [Ai(s.validation.message)], s.validation.message), None)
    else
      match model(agent.model, RoleRequest(agent, s.messages, safeInput))
      case Content(t) =>
        if t != "" then ProcessOutcome(Reply(s.messages, [Human(safeInput), Ai(t)], t), Some((safeInput, t)))
        else ProcessOutcome(Reply(s.messages, [Human(safeInput), Ai(ApologyMessage)], ApologyMessage), Some((safeInput, ApologyMessage)))
      case Failure(_) =>
        ProcessOutcome(Reply(s.messages, [Human(safeInput), Ai(ApologyMessage)], ApologyMessage), Some((safeInput, ApologyMessage)))
  }

  /**
   * Whatever the branch, the node writes only `messages` and `state`: one AI
   * message (guard or refusal, nothing saved) or a human/ai pair (the trimmed
   * input and a non-empty reply or apology, saved as that pair), with
   * `messageCount` following the list and `lastResponse` the final AI text,
   * which is empty only for a refusal without a text.
   */
  lemma ProcessShape(agent: Agent, s: State, model: Model)
    ensures var r := Process(agent, s, model);
      && r.update.input.None? && r.update.validation.None?
      && r.update.messages.Some? && r.update.state.Some?
      && var added := r.update.messages.value;
      && 1 <= |added| <= 2
      && r.update.state.value.messageCount == Some(|s.messages| + |added|)
      && r.update.state.value.lastResponse.Some?
      && r.update.state.value.lastResponse.value.Some?
      && added[|added| - 1] == Ai(r.update.state.value.lastResponse.value.value)
      && (r.update.state.value.lastResponse.value.value == "" ==>
            Trim(s.input) != "" && !s.validation.isValid && s.validation.message == "")
      && (r.saved.Some? <==> Trim(s.input) != "" && s.validation.isValid)
      && (r.saved.Some? ==>
            && r.saved.value.0 == Trim(s.input) && r.saved.value.0 != "" && r.saved.value.1 != ""
            && added == [Human(r.saved.value.0), Ai(r.saved.value.1)])
      && (r.saved.None? ==> |added| == 1)
  {
  }

  /**
   * The guard: a blank input ends the turn with the one fixed AI message,
   * saves nothing and consults no model (any other model gives the same result).
   */
  lemma GuardBranch(agent: Agent, s: State, model: Model, other: Model)
    requires Trim(s.input) == ""
    ensures Process(agent, s, model) ==
      ProcessOutcome(Update(Some([Ai(GuardMessage)]), None, Some(SetResponse(Some(GuardMessage), |s.messages| + 1)), None), None)
    ensures Process(agent, s, model) == Process(agent, s, other)
  {
  }

  /** A refused input ends the turn with exactly the refusal text, saves nothing and consults no model. */
  lemma RefusalBranch(agent: Agent, s: State, model: Model, other: Model)
    requires Trim(s.input) != "" && !s.validation.isValid
    ensures Process(agent, s, model) ==
      ProcessOutcome(Update(Some([Ai(s.validation.message)]), None,
                            Some(SetResponse(Some(s.validation.message), |s.messages| + 1)), None), None)
    ensures Process(agent, s, model) == Process(agent, s, other)
  {
  }

  /** A non-empty reply to the role request is appended after the trimmed input and saved as that pair. */
  lemma ReplyBranch(agent: Agent, s: State, model: Model, t: string)
    requires Trim(s.input) != "" && s.validation.isValid
    requires model(agent.model, RoleRequest(agent, s.messages, Trim(s.input))) == Content(t) && t != ""
    ensures Process(agent, s, model) ==
      ProcessOutcome(Update(Some([Human(Trim(s.input)), Ai(t)]), None,
                            Some(SetResponse(Some(t), |s.messages| + 2)), None),
                     Some((Trim(s.input), t)))
  {
  }

  /** A failed call or an empty reply leaves the same pair shape, with the apology in place of the reply. */
  lemma ApologyBranch(agent: Agent, s: State, model: Model)
    requires Trim(s.input) != "" && s.validation.isValid
    requires var reply := model(agent.model, RoleRequest(agent, s.messages, Trim(s.input)));
      reply.Failure? || reply.text == ""
    ensures Process(agent, s, model) ==
      ProcessOutcome(Update(Some([Human(Trim(s.input)), Ai(ApologyMessage)]), None,
                            Some(SetResponse(Some(ApologyMessage), |s.messages| + 2)), None),
                     Some((Trim(s.input), ApologyMessage)))
  {
  }

  /** What `graph.invoke` resolves to: the final state and the pair the process node saved, if any. */
  datatype Turn = Turn(final: State, saved: Option<(string, string)>)

  /**
   * `graph.invoke(initial)` over `validate -> process -> END`: each node's
   * update merged in turn. A rejection of the validate node (its model call
   * failing) rejects the whole invocation, before anything is saved.
   */
  function Invoke(agent: Agent, initial: State, matches: Matcher, model: Model): (r: Result<Turn>)
    ensures r.Err? <==> ValidateNode(agent, initial, matches, model).Err?
  {
    match ValidateNode(agent, initial, matches, model)
    case Err(e) => Err(e)
    case Ok(u) =>
      var validated := Apply(initial, u);
      var o := Process(agent, validated, model);
      Ok(Turn(Apply(validated, o.update), o.saved))
  }

  /**
   * A turn started from the invocation object of `runAgent` keeps the count
   * in step with the list, and always ends with a non-empty last response
   * that is the content of the final AI message.
   */
  lemma {:induction false} TurnResponds(agent: Agent, prior: seq<Message>, input: string, matches: Matcher, model: Model)
    requires Invoke(agent, Initial(prior, input), matches, model).Ok?
    ensures var t := Invoke(agent, Initial(prior, input), matches, model).value;
      && t.final.state.messageCount == |t.final.messages|
      && t.final.state.lastResponse.Some? && t.final.state.lastResponse.value != ""
      && t.final.messages[|t.final.messages| - 1] == Ai(t.final.state.lastResponse.value)
      && t.final.input == input
      && prior <= t.final.messages
      && (t.saved.Some? ==> t.final.messages == prior + [Human(t.saved.value.0), Ai(t.saved.value.1)])
      && (t.saved.Some? ==> t.saved.value.0 != "" && t.saved.value.1 != "")
  {
    var s0 := Initial(prior, input);
    var v := Validate(agent, input, matches, model).value;
    var validated := Apply(s0, Update(None, None, None, Some(SetValidation(v))));
    assert validated == s0.(validation := v);
    ProcessShape(agent, validated, model);
    var o := Process(agent, validated, model);
    assert Invoke(agent, s0, matches, model).value.final == Apply(validated, o.update);
  }

  /** A blank input: the turn adds the guard message alone and saves nothing. */
  lemma {:induction false} TurnGuard(agent: Agent, prior: seq<Message>, input: string, matches: Matcher, model: Model)
    requires Invoke(agent, Initial(prior, input), matches, model).Ok?
    requires Trim(input) == ""
    ensures var t := Invoke(agent, Initial(prior, input), matches, model).value;
      && t.final.messages == prior + [Ai(GuardMessage)]
      && t.final.state.lastResponse == Some(GuardMessage)
      && t.saved.None?
  {
    var v := Validate(agent, input, matches, model).value;
    var validated := Initial(prior, input).(validation := v);
    assert Apply(Initial(prior, input), Update(None, None, None, Some(SetValidation(v)))) == validated;
    GuardBranch(agent, validated, model, model);
  }

  /** A refused input: the turn adds the refusal text alone, with no human turn, and saves nothing. */
  lemma {:induction false} TurnRefusal(agent: Agent, prior: seq<Message>, input: string, matches: Matcher, model: Model)
    requires Invoke(agent, Initial(prior, input), matches, model).Ok?
    requires Trim(input) != "" && !Validate(agent, input, matches, model).value.isValid
    ensures var t := Invoke(agent, Initial(prior, input), matches, model).value;
      var refusal := Validate(agent, input, matches, model).value.message;
      && refusal != ""
      && t.final.messages == prior + [Ai(refusal)]
      && t.final.state.lastResponse == Some(refusal)
      && t.saved.None?
  {
    var v := Validate(agent, input, matches, model).value;
    var validated := Initial(prior, input).(validation := v);
    assert Apply(Initial(prior, input), Update(None, None, None, Some(SetValidation(v)))) == validated;
    RefusalBranch(agent, validated, model, model);
  }

  /**
   * An admitted input: the turn adds the trimmed input and the reply (or the
   * apology) as a pair, which is also the pair saved, and the reply is the last response.
   */
  lemma {:induction false} TurnExchange(agent: Agent, prior: seq<Message>, input: string, matches: Matcher, model: Model)
    requires Invoke(agent, Initial(prior, input), matches, model).Ok?
    requires Trim(input) != "" && Validate(agent, input, matches, model).value.isValid
    ensures var t := Invoke(agent, Initial(prior, input), matches, model).value;
      && t.saved.Some? && t.saved.value.0 == Trim(input) && t.saved.value.1 != ""
      && t.final.messages == prior + [Human(t.saved.value.0), Ai(t.saved.value.1)]
      && t.final.state.lastResponse == Some(t.saved.value.1)
  {
    var v := Validate(agent, input, matches, model).value;
    var validated := Initial(prior, input).(validation := v);
    assert Apply(Initial(prior, input), Update(None, None, None, Some(SetValidation(v)))) == validated;
    ProcessShape(agent, validated, model);
  }
}
