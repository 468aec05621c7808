/**
 * The `validate` node of backend/services/LangGraphAgentService.js (lines
 * 184-309): an unsafe-pattern scan that reports every match, a list of
 * boundary rules where the first match decides, and a capability check that
 * asks the language model and reads the leading word of its reply.
 *
 * Regular expressions are uninterpreted: a `Matcher` says whether a pattern
 * matches a text (what `pattern.test(input)` returns) and nothing else is
 * assumed about it.
 */
module Guardrails {
  import opened Wrappers
  import opened JsText
  import opened Messages
  import opened AgentState

  /** The eleven regular expressions of lines 190-236, by what they look for. */
  datatype Pattern =
    | ExecCall | ImportSyntax | SchemePrefix | EnvAccess | PrivilegeCommand | CredentialWord
    | Impersonation | InstructionOverride | SystemAccess | CommandExecution | PrivacyRequest

  /** `pattern.toString()`: the text recorded in `violations`. */
  function Source(p: Pattern): string
  {
    match p
    case ExecCall => "/exec\\(|eval\\(|system\\(/i"
    case ImportSyntax => "/require\\(|import\\s+/i"
    case SchemePrefix => "/file:|http:|https:/i"
    case EnvAccess => "/process\\.env/i"
    case PrivilegeCommand => "/sudo|chmod|chown/i"
    case CredentialWord => "/\\b(password|api[_-]?key)\\b/i"
    case Impersonation => "/(impersonate|pretend to be|act as|behave like)/i"
    case InstructionOverride => "/(modify|change|override|update) (my|your) (instructions|core|settings)/i"
    case SystemAccess => "/(access|modify|change|delete|create) (system|file|settings|config)/i"
    case CommandExecution => "/(execute|run|perform) (command|action|operation)/i"
    case PrivacyRequest => "/(private|confidential|secret|password|key)/i"
  }

  type Matcher = (Pattern, string) -> bool

  /** `forbiddenPatterns` (lines 190-197), in order. */
  const UnsafePatterns: seq<Pattern> :=
    [ExecCall, ImportSyntax, SchemePrefix, EnvAccess, PrivilegeCommand, CredentialWord]

  datatype Boundary = Boundary(pattern: Pattern, message: string)

  /** `boundaries` (lines 215-236), in order, each with its own refusal. */
  const Boundaries: seq<Boundary> := [
    Boundary(Impersonation, "I cannot impersonate other agents or systems."),
    Boundary(InstructionOverride, "I cannot modify or override my core instructions."),
    Boundary(SystemAccess, "I cannot access or modify system files or settings."),
    Boundary(CommandExecution, "I cannot execute commands or access external systems."),
    Boundary(PrivacyRequest, "I must respect user privacy and data confidentiality.")
  ]

  const UnsafeMessage := "I cannot process this request as it contains potentially unsafe patterns."
  const CapabilityViolation := "capability_check"
  const CapabilityMessage :=
    "I apologize, but this request is outside my capabilities. I can only assist with tasks within my defined role."

  lemma UnsafePatternsDistinct()
    ensures NoDuplicates(UnsafePatterns)
  {
  }

  /** `patterns.filter(p => p.test(input))`. */
  function Matching(ps: seq<Pattern>, matches: Matcher, input: string): seq<Pattern>
  {
    if ps == [] then []
    else if matches(ps[0], input) then [ps[0]] + Matching(ps[1..], matches, input)
    else Matching(ps[1..], matches, input)
  }

  /** The filter keeps every matching pattern and only those, in list order, each once. */
  lemma {:induction false} MatchingSpec(ps: seq<Pattern>, matches: Matcher, input: string)
    ensures var r := Matching(ps, matches, input);
      && (forall p :: p in r <==> p in ps && matches(p, input))
      && Subseq(r, ps)
      && (NoDuplicates(ps) ==> NoDuplicates(r))
  {
    if ps != [] {
      var rest := Matching(ps[1..], matches, input);
      MatchingSpec(ps[1..], matches, input);
      assert ps == [ps[0]] + ps[1..];
      if matches(ps[0], input) {
        SubseqCons(ps[0], rest, ps[1..]);
      } else {
        SubseqSkip(ps[0], rest, ps[1..]);
      }
    }
  }

  /** `.map(pattern => pattern.toString())`. */
  function Sources(ps: seq<Pattern>): (r: seq<string>)
    ensures |r| == |ps|
    ensures forall i :: 0 <= i < |ps| ==> r[i] == Source(ps[i])
  {
    if ps == [] then [] else [Source(ps[0])] + Sources(ps[1..])
  }

  /** The `violations` of the unsafe scan (lines 199-201). */
  function UnsafeViolations(matches: Matcher, input: string): seq<string>
  {
    Sources(Matching(UnsafePatterns, matches, input))
  }

  /**
   * The unsafe scan reports the source of every matching pattern and of
   * nothing else, in list order with no repeats (the patterns it prints are
   * the filter's), and is empty exactly when no unsafe pattern matches.
   */
  lemma UnsafeScan(matches: Matcher, input: string)
    ensures var r := UnsafeViolations(matches, input);
      var ms := Matching(UnsafePatterns, matches, input);
      && r == Sources(ms)
      && Subseq(ms, UnsafePatterns) && NoDuplicates(ms)
      && (forall p :: p in ms <==> p in UnsafePatterns && matches(p, input))
      && (forall p :: p in UnsafePatterns && matches(p, input) ==> Source(p) in r)
      && (forall v :: v in r ==> exists p :: p in UnsafePatterns && matches(p, input) && Source(p) == v)
      && (r == [] <==> forall p :: p in UnsafePatterns ==> !matches(p, input))
  {
    var ms := Matching(UnsafePatterns, matches, input);
    UnsafePatternsDistinct();
    MatchingSpec(UnsafePatterns, matches, input);
    var r := Sources(ms);
    forall v | v in r ensures exists p :: p in UnsafePatterns && matches(p, input) && Source(p) == v {
      var i :| 0 <= i < |r| && r[i] == v;
      assert ms[i] in ms;
    }
    forall p | p in UnsafePatterns && matches(p, input) ensures Source(p) in r {
      var i :| 0 <= i < |ms| && ms[i] == p;
      assert r[i] == Source(p);
    }
    if r != [] {
      assert ms[0] in ms;
    }
  }

  /** The boundary loop (lines 238-249): the index of the first rule whose pattern matches. */
  function FirstBoundary(bs: seq<Boundary>, matches: Matcher, input: string): (r: Option<nat>)
    ensures r.Some? ==> r.value < |bs|
  {
    if bs == [] then None
    else if matches(bs[0].pattern, input) then Some(0)
    else
      match FirstBoundary(bs[1..], matches, input)
      case None => None
      case Some(k) => Some(k + 1)
  }

  /** The loop stops at a matching rule with no matching rule before it, and runs out only if none matches. */
  lemma {:induction false} FirstBoundarySpec(bs: seq<Boundary>, matches: Matcher, input: string)
    ensures var r := FirstBoundary(bs, matches, input);
      && (r.Some? ==> r.value < |bs| && matches(bs[r.value].pattern, input))
      && (r.Some? ==> forall j :: 0 <= j < r.value ==> !matches(bs[j].pattern, input))
      && (r.None? <==> forall j :: 0 <= j < |bs| ==> !matches(bs[j].pattern, input))
  {
    if bs != [] && !matches(bs[0].pattern, input) {
      FirstBoundarySpec(bs[1..], matches, input);
      assert forall j :: 1 <= j < |bs| ==> bs[j] == bs[1..][j - 1];
    }
  }

  /** `capabilityCheck.content.toLowerCase().startsWith('invalid')`. */
  predicate RepliesInvalid(content: string)
  {
    LowerStartsWith(content, "invalid")
  }

  /** The single message of the capability check (lines 252-288). */
  function CapabilityRequest(instructions: string, input: string): seq<PromptMessage>
  {
    [System(CapabilityPrompt(instructions, input))]
  }

  /**
   * The three layers in order. A failed capability call is not a validation
   * outcome: it is the error the node rejects with.
   */
  function Validate(agent: AgentModels.Agent, input: string, matches: Matcher, model: Model): (r: Result<Validation>)
    ensures r.Ok? && r.value.isValid ==> r.value.violations == [] && r.value.message == ""
    ensures r.Ok? && !r.value.isValid ==> r.value.violations != [] && r.value.message != ""
  {
    var violations := UnsafeViolations(matches, input);
    if |violations| > 0 then
      Ok(Validation(false, violations, UnsafeMessage))
    else
      match FirstBoundary(Boundaries, matches, input)
      case Some(k) =>
        Ok(Validation(false, [Source(Boundaries[k].pattern)], Boundaries[k].message))
      case None =>
        match model(agent.model, CapabilityRequest(agent.instructions, input))
        case Failure(e) => Err(e)
        case Content(text) =>
          if RepliesInvalid(text) then Ok(Validation(false, [CapabilityViolation], CapabilityMessage))
          else Ok(Validation(true, [], ""))
  }

  /** The node's return value: only the `validation` channel. */
  function ValidateNode(agent: AgentModels.Agent, s: State, matches: Matcher, model: Model): (r: Result<Update>)
    ensures r.Ok? ==> r.value.messages.None? && r.value.input.None? && r.value.state.None?
    ensures r.Ok? <==> Validate(agent, s.input, matches, model).Ok?
  {
    match Validate(agent, s.input, matches, model)
    case Err(e) => Err(e)
    case Ok(v) => Ok(Update(None, None, None, Some(SetValidation(v))))
  }

  /**
   * Any unsafe match decides: the violations are all the matching patterns,
   * the message is the fixed one, and neither the boundary rules nor the
   * model are consulted (the outcome is the same under any model).
   */
  lemma UnsafeScanDecides(agent: AgentModels.Agent, input: string, matches: Matcher, model: Model, other: Model)
    requires exists p :: p in UnsafePatterns && matches(p, input)
    ensures Validate(agent, input, matches, model) == Ok(Validation(false, UnsafeViolations(matches, input), UnsafeMessage))
    ensures Validate(agent, input, matches, model) == Validate(agent, input, matches, other)
  {
    UnsafeScan(matches, input);
  }

  /**
   * Boundary rules are reached only when no unsafe pattern matched; the first
   * matching rule decides, with its own pattern and message, whatever the model.
   */
  lemma {:induction false} BoundaryRuleDecides(agent: AgentModels.Agent, input: string, matches: Matcher, model: Model, other: Model, k: nat)
    requires forall p :: p in UnsafePatterns ==> !matches(p, input)
    requires k < |Boundaries| && matches(Boundaries[k].pattern, input)
    requires forall j :: 0 <= j < k ==> !matches(Boundaries[j].pattern, input)
    ensures Validate(agent, input, matches, model) == Ok(Validation(false, [Source(Boundaries[k].pattern)], Boundaries[k].message))
    ensures Validate(agent, input, matches, model) == Validate(agent, input, matches, other)
  {
    UnsafeScan(matches, input);
    FirstBoundarySpec(Boundaries, matches, input);
    var f := FirstBoundary(Boundaries, matches, input);
    assert f.Some?;
    assert f.value == k;
  }

  /**
   * When no static rule matches, the model's reply decides: a reply whose
   * lower-case form starts with "invalid" refuses with the capability
   * violation, any other reply admits the input.
   */
  lemma CapabilityCheckDecides(agent: AgentModels.Agent, input: string, matches: Matcher, model: Model)
    requires forall p :: p in UnsafePatterns ==> !matches(p, input)
    requires forall j :: 0 <= j < |Boundaries| ==> !matches(Boundaries[j].pattern, input)
    ensures var reply := model(agent.model, CapabilityRequest(agent.instructions, input));
      Validate(agent, input, matches, model) ==
        match reply
        case Failure(e) => Err(e)
        case Content(t) =>
          if RepliesInvalid(t) then Ok(Validation(false, ["capability_check"], CapabilityMessage))
          else Ok(Validation(true, [], ""))
  {
    UnsafeScan(matches, input);
    FirstBoundarySpec(Boundaries, matches, input);
  }

  /**
   * Validation rejects (rather than answering with a verdict) exactly when
   * no static rule matched and the capability call itself failed.
   */
  lemma ValidateFailsOnlyOnModelFailure(agent: AgentModels.Agent, input: string, matches: Matcher, model: Model)
    ensures Validate(agent, input, matches, model).Err? <==>
      (forall p :: p in UnsafePatterns ==> !matches(p, input))
      && (forall j :: 0 <= j < |Boundaries| ==> !matches(Boundaries[j].pattern, input))
      && model(agent.model, CapabilityRequest(agent.instructions, input)).Failure?
  {
    UnsafeScan(matches, input);
    FirstBoundarySpec(Boundaries, matches, input);
  }

  /** A refusal always carries a non-empty message, so the refusal branch always yields a response. */
  lemma RefusalHasMessage(agent: AgentModels.Agent, input: string, matches: Matcher, model: Model)
    requires Validate(agent, input, matches, model).Ok?
    requires !Validate(agent, input, matches, model).value.isValid
    ensures Validate(agent, input, matches, model).value.message in
      {UnsafeMessage, CapabilityMessage} + set b | b in Boundaries :: b.message
  {
  }
}
