/**
 * The conversation messages the core passes around (LangChain's HumanMessage
 * and AIMessage), the prompts it sends to the language model, and the model
 * itself, which is an oracle: it maps a prompt to a reply or a failure and
 * nothing about its behaviour is assumed.
 */
module Messages {
  import opened JsText
  import opened AgentModels

  /**
   * An in-memory conversation message. `Other` is a stored record whose type
   * was neither 'human' nor 'ai': the loaders hand it on unconverted, and
   * every `instanceof HumanMessage` test in the core treats it as not human.
   */
  datatype Message = Human(content: string) | Ai(content: string) | Other(content: string)

  /** The system texts the core renders from its templates, kept as their parameters. */
  datatype Prompt =
    /** The capability-check rubric of LangGraphAgentService.js:254-286. */
    | CapabilityPrompt(instructions: string, input: string)
    /** The role template of LangGraphAgentService.js:156-175. */
    | RolePrompt(name: string, instructions: string, chatHistory: string, input: string)
    /** The template of ChatGraph.js:33-42; `prompt.format` output is sent as one text. */
    | ChatGraphPrompt(instructions: string, history: seq<Message>, input: string)

  /** `Formatted` is a prompt text sent on its own, which the model client treats as one human turn. */
  datatype PromptMessage = System(prompt: Prompt) | Chat(message: Message) | Formatted(prompt: Prompt)

  /** What `model.invoke` resolves to: a reply's content, or a rejection. */
  datatype Reply = Content(text: string) | Failure(error: string)

  /** `new ChatOpenAI({modelName}).invoke(prompt)` as an oracle of the model name and the prompt. */
  type Model = (string, seq<PromptMessage>) -> Reply

  predicate IsHuman(m: Message)
  {
    m.Human?
  }

  /** `${m instanceof HumanMessage ? 'Human' : 'Assistant'}: ${m.content}` (LangGraphAgentService.js:361). */
  function TranscriptLine(m: Message): string
  {
    (if m.Human? then "Human" else "Assistant") + ": " + m.content
  }

  function TranscriptLines(ms: seq<Message>): (r: seq<string>)
    ensures |r| == |ms|
    ensures forall i :: 0 <= i < |ms| ==> r[i] == TranscriptLine(ms[i])
  {
    if ms == [] then [] else [TranscriptLine(ms[0])] + TranscriptLines(ms[1..])
  }

  /** The `chat_history` text of the role prompt: one line per message, joined by newlines. */
  function Transcript(ms: seq<Message>): string
  {
    Join(TranscriptLines(ms), "\n")
  }

  /**
   * The record a message is persisted as: HumanMessage -> 'human', anything
   * else -> 'ai' (LangGraphAgentService.js:480-483, ChatGraph.js:62-66).
   */
  function ToStored(m: Message): (r: StoredMessage)
    ensures r.content == m.content
    ensures r.kind == (if m.Human? then HumanType else AiType)
  {
    StoredMessage(if m.Human? then HumanType else AiType, m.content)
  }

  /** The whole list written back to the store, element by element. */
  function Snapshot(ms: seq<Message>): (r: seq<StoredMessage>)
    ensures |r| == |ms|
    ensures forall i :: 0 <= i < |ms| ==> r[i] == ToStored(ms[i])
  {
    if ms == [] then [] else [ToStored(ms[0])] + Snapshot(ms[1..])
  }

  lemma {:induction false} SnapshotAppend(a: seq<Message>, b: seq<Message>)
    ensures Snapshot(a + b) == Snapshot(a) + Snapshot(b)
  {
    var l, r := Snapshot(a + b), Snapshot(a) + Snapshot(b);
    forall i | 0 <= i < |l| ensures l[i] == r[i] {
      if i < |a| {
        assert (a + b)[i] == a[i];
      } else {
        assert (a + b)[i] == b[i - |a|];
      }
    }
  }
}
