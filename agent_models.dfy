/**
 * The persisted records of the agent side (backend/models/Agent.js and
 * backend/models/ChatHistory.js) and the two collections that hold them.
 * One ChatHistory document per agent is assumed; timestamps are not modelled.
 */
module AgentModels {

  /** Identity of an agent document; the same value keys both collections and both registries. */
  type AgentId = string

  /** An agent document after the schema has trimmed its string fields. */
  datatype Agent = Agent(id: AgentId, name: string, instructions: string, model: string)

  /** The messages of the schema's two `required` string paths. */
  const NameMissing := "name: Path `name` is required."
  const InstructionsMissing := "instructions: Path `instructions` is required."

  /**
   * The validation messages of the Agent schema (lines 3-23 of Agent.js) for
   * a name and instructions already trimmed, in schema order. `model` has a
   * default and nothing else is required.
   */
  function AgentSchemaErrors(name: string, instructions: string): (r: seq<string>)
    ensures r == [] <==> name != "" && instructions != ""
    ensures NameMissing in r <==> name == ""
    ensures InstructionsMissing in r <==> instructions == ""
    ensures |r| <= 2 && (name == "" ==> r[0] == NameMissing)
  {
    (if name == "" then [NameMissing] else []) +
    (if instructions == "" then [InstructionsMissing] else [])
  }

  /** The schema's `type` enum ('human' | 'ai'); the field is not required, so it may be absent. */
  datatype StoredType = HumanType | AiType | Untyped

  /**
   * One element of `ChatHistory.messages`. A missing `content` is represented
   * by the empty string: every test in the core treats both as falsy.
   */
  datatype StoredMessage = StoredMessage(kind: StoredType, content: string)

  /** A stored message every reader of the collection keeps and converts faithfully. */
  predicate WellFormed(m: StoredMessage)
  {
    m.content != "" && m.kind != Untyped
  }

  predicate AllWellFormed(h: seq<StoredMessage>)
  {
    forall i :: 0 <= i < |h| ==> WellFormed(h[i])
  }

  /** The MongoDB collections `agents` and `chathistories`, keyed by agent identity. */
  class Database {
    var agents: map<AgentId, Agent>
    var chats: map<AgentId, seq<StoredMessage>>

    constructor ()
      ensures agents == map[] && chats == map[]
    {
      agents := map[];
      chats := map[];
    }
  }
}
