/**
 * The `LangGraphAgentService` class of backend/services/LangGraphAgentService.js:
 * two registries (`agentGraphs`, `memoryStore`) over the shared store, the
 * turn of `runAgent` (load the memory, run the graph, write the whole list
 * back), and the code that fills and empties the registries.
 *
 * A compiled graph is represented by what it closes over: the agent document
 * it was built for and the memory its process node saves to. The language
 * model and the regular expressions are the oracles of `ProcessNode.Invoke`.
 */
module AgentService {
  import opened Wrappers
  import opened JsText
  import opened AgentModels
  import opened Messages
  import opened AgentState
  import opened MongoDbMemory
  import opened Guardrails
  import opened ProcessNode

  const RunFailure := "Failed to run agent: "
  const CreateFailure := "Failed to create agent: "
  const NoResponse := "Failed to get response from AI"
  /** The TypeError of `updatedChatHistory.messages` / `clearedHistory.messages` when no document matched. */
  const NullMessages := "Cannot read properties of null (reading 'messages')"
  const DefaultModel := "gpt-3.5-turbo"

  /** What `workflow.compile()` closes over in `initializeAgentGraph`. */
  datatype AgentGraph = AgentGraph(agent: Agent, memory: ChatMemory)

  /** `{ response, chatHistory }` of a successful run. */
  datatype RunReply = RunReply(response: string, chatHistory: seq<StoredMessage>)

  /** A run's result together with the chat collection it leaves behind. */
  datatype Run = Run(result: Result<RunReply>, chats: map<AgentId, seq<StoredMessage>>)

  /**
   * The part of a turn after the graph (lines 474-501): the process node's
   * save, the check of the last response, and the final write, which replaces
   * the list without creating a document.
   */
  function Finish(chats: map<AgentId, seq<StoredMessage>>, id: AgentId, t: Turn): (r: Run)
    ensures forall other :: other != id ==>
      (other in r.chats <==> other in chats) && (other in chats ==> r.chats[other] == chats[other])
    ensures r.result.Ok? ==> id in r.chats && r.chats[id] == r.result.value.chatHistory
    ensures r.result.Err? ==> RunFailure <= r.result.error
  {
    var saved := if t.saved.Some? then AppendPair(chats, id, t.saved.value.0, t.saved.value.1) else chats;
    if t.final.state.lastResponse.None? || t.final.state.lastResponse.value == "" then
      Run(Err(RunFailure + NoResponse), saved)
    else if id !in saved then
      Run(Err(RunFailure + NullMessages), saved)
    else
      var snapshot := Snapshot(t.final.messages);
      Run(Ok(RunReply(t.final.state.lastResponse.value, snapshot)), saved[id := snapshot])
  }

  /**
   * One turn of `runAgent` for an agent whose graph is registered (lines
   * 450-501): load the memory, invoke the graph, finish; every failure is
   * rewrapped as "Failed to run agent: ...".
   */
  function RunTurn(chats: map<AgentId, seq<StoredMessage>>, agent: Agent, message: string, matches: Matcher, model: Model): (r: Run)
    ensures forall other :: other != agent.id ==>
      (other in r.chats <==> other in chats) && (other in chats ==> r.chats[other] == chats[other])
    ensures r.result.Ok? ==> agent.id in r.chats && r.chats[agent.id] == r.result.value.chatHistory
    ensures r.result.Err? ==> RunFailure <= r.result.error
  {
    match Invoke(agent, Initial(MemoryVariables(LookupChats(chats, agent.id)), message), matches, model)
    case Err(e) => Run(Err(RunFailure + e), chats)
    case Ok(t) => Finish(chats, agent.id, t)
  }

  /** `getAgentById` (lines 45-55). */
  function GetAgentById(agents: map<AgentId, Agent>, id: AgentId): (r: Result<Agent>)
    ensures r.Ok? <==> id in agents
    ensures r.Ok? ==> r.value == agents[id]
    ensures r.Err? ==> r.error == "Failed to get agent: Agent not found"
  {
    if id in agents then Ok(agents[id]) else Err("Failed to get agent: Agent not found")
  }

  /**
   * A turn the graph completes never fails for want of a response: the only
   * failure left after the graph is the missing history document.
   */
  lemma {:induction false} CompletedTurnFailsOnlyWithoutDocument(
    chats: map<AgentId, seq<StoredMessage>>, agent: Agent, message: string, matches: Matcher, model: Model)
    requires Invoke(agent, Initial(MemoryVariables(LookupChats(chats, agent.id)), message), matches, model).Ok?
    ensures RunTurn(chats, agent, message, matches, model).result.Ok? <==> agent.id in RunTurn(chats, agent, message, matches, model).chats
    ensures RunTurn(chats, agent, message, matches, model).result.Err? ==>
      RunTurn(chats, agent, message, matches, model).result.error == RunFailure + NullMessages
    ensures RunTurn(chats, agent, message, matches, model).result.Ok? ==>
      RunTurn(chats, agent, message, matches, model).result.value.response ==
        Invoke(agent, Initial(MemoryVariables(LookupChats(chats, agent.id)), message), matches, model).value.final.state.lastResponse.value
  {
    TurnResponds(agent, MemoryVariables(LookupChats(chats, agent.id)), message, matches, model);
  }

  /** Over an existing document, the final write stores the whole turn, re-typed message by message. */
  lemma FinishOverDocument(chats: map<AgentId, seq<StoredMessage>>, id: AgentId, t: Turn)
    requires id in chats
    requires t.final.state.lastResponse.Some? && t.final.state.lastResponse.value != ""
    ensures Finish(chats, id, t) ==
      Run(Ok(RunReply(t.final.state.lastResponse.value, Snapshot(t.final.messages))),
          (if t.saved.Some? then AppendPair(chats, id, t.saved.value.0, t.saved.value.1) else chats)[id := Snapshot(t.final.messages)])
  {
  }

  /** Without a document, the final write finds one only if the process node's save created it. */
  lemma FinishWithoutDocument(chats: map<AgentId, seq<StoredMessage>>, id: AgentId, t: Turn)
    requires id !in chats
    requires t.final.state.lastResponse.Some? && t.final.state.lastResponse.value != ""
    ensures t.saved.None? ==> Finish(chats, id, t) == Run(Err(RunFailure + NullMessages), chats)
    ensures t.saved.Some? ==>
      Finish(chats, id, t).result == Ok(RunReply(t.final.state.lastResponse.value, Snapshot(t.final.messages)))
      && Finish(chats, id, t).chats[id] == Snapshot(t.final.messages)
  {
  }

  lemma {:induction false} AppendWellFormed(h: seq<StoredMessage>, extra: seq<StoredMessage>)
    requires AllWellFormed(h) && AllWellFormed(extra)
    ensures AllWellFormed(h + extra)
  {
    var all := h + extra;
    forall i | 0 <= i < |all| ensures WellFormed(all[i]) {
      if i < |h| {
        assert all[i] == h[i];
      } else {
        assert all[i] == extra[i - |h|];
      }
    }
  }

  /**
   * Over a well-formed document, a turn that extends the loaded list by
   * `added` leaves the document followed by `added`, re-typed: the final
   * overwrite rewrites the old records unchanged.
   */
  lemma {:induction false} FinishAppends(chats: map<AgentId, seq<StoredMessage>>, id: AgentId, t: Turn, added: seq<Message>)
    requires id in chats && AllWellFormed(chats[id])
    requires t.final.messages == ToMessages(chats[id]) + added
    requires t.final.state.lastResponse.Some? && t.final.state.lastResponse.value != ""
    ensures Finish(chats, id, t).result == Ok(RunReply(t.final.state.lastResponse.value, chats[id] + Snapshot(added)))
    ensures Finish(chats, id, t).chats[id] == chats[id] + Snapshot(added)
  {
    var h := chats[id];
    LoadWellFormed(h);
    SnapshotOfLoad(h);
    SnapshotAppend(ToMessages(h), added);
    FinishOverDocument(chats, id, t);
  }

  /** Loading a well-formed document yields its messages, converted one by one. */
  lemma {:induction false} LoadsDocument(chats: map<AgentId, seq<StoredMessage>>, id: AgentId)
    requires id in chats && AllWellFormed(chats[id])
    ensures MemoryVariables(LookupChats(chats, id)) == ToMessages(chats[id])
  {
    LoadWellFormed(chats[id]);
  }

  /** Over a well-formed document, a run is the finish of the graph's turn over the converted records. */
  lemma {:induction false} RunOverDocument(
    chats: map<AgentId, seq<StoredMessage>>, agent: Agent, message: string, matches: Matcher, model: Model)
    requires agent.id in chats && AllWellFormed(chats[agent.id])
    requires Invoke(agent, Initial(ToMessages(chats[agent.id]), message), matches, model).Ok?
    ensures RunTurn(chats, agent, message, matches, model) ==
      Finish(chats, agent.id, Invoke(agent, Initial(ToMessages(chats[agent.id]), message), matches, model).value)
  {
    LoadsDocument(chats, agent.id);
  }

  /** `FinishAppends` for any turn whose list extends the loaded one. */
  lemma {:induction false} FinishExtends(chats: map<AgentId, seq<StoredMessage>>, id: AgentId, t: Turn)
    requires id in chats && AllWellFormed(chats[id])
    requires ToMessages(chats[id]) <= t.final.messages
    requires t.final.state.lastResponse.Some? && t.final.state.lastResponse.value != ""
    ensures |chats[id]| <= |t.final.messages|
    ensures Finish(chats, id, t).result.Ok?
    ensures Finish(chats, id, t).result.value.response == t.final.state.lastResponse.value
    ensures Finish(chats, id, t).chats[id] == chats[id] + Snapshot(t.final.messages[|chats[id]|..])
  {
    var prior := ToMessages(chats[id]);
    var added := t.final.messages[|prior|..];
    assert t.final.messages == prior + added;
    FinishAppends(chats, id, t, added);
  }

  /** A turn that adds one AI message and saves nothing appends that one record. */
  lemma {:induction false} FinishSingle(chats: map<AgentId, seq<StoredMessage>>, id: AgentId, t: Turn, text: string)
    requires id in chats && AllWellFormed(chats[id])
    requires text != "" && t.final.state.lastResponse == Some(text)
    requires t.final.messages == ToMessages(chats[id]) + [Ai(text)]
    ensures var run := Finish(chats, id, t);
      && run.result.Ok? && run.result.value.response == text
      && run.chats[id] == chats[id] + [StoredMessage(AiType, text)]
      && AllWellFormed(run.chats[id])
  {
    FinishAppends(chats, id, t, [Ai(text)]);
    assert Snapshot([Ai(text)]) == [StoredMessage(AiType, text)];
    AppendWellFormed(chats[id], [StoredMessage(AiType, text)]);
  }

  /**
   * A turn that saved a pair and added exactly that pair leaves the document
   * as `saveContext` left it: the final overwrite changes nothing further.
   */
  lemma {:induction false} FinishPair(chats: map<AgentId, seq<StoredMessage>>, id: AgentId, t: Turn)
    requires id in chats && AllWellFormed(chats[id])
    requires t.saved.Some? && t.saved.value.0 != "" && t.saved.value.1 != ""
    requires t.final.state.lastResponse == Some(t.saved.value.1)
    requires t.final.messages == ToMessages(chats[id]) + [Human(t.saved.value.0), Ai(t.saved.value.1)]
    ensures var run := Finish(chats, id, t);
      && run.result.Ok? && run.result.value.response == t.saved.value.1
      && run.chats[id] == AppendPair(chats, id, t.saved.value.0, t.saved.value.1)[id]
      && AllWellFormed(run.chats[id])
  {
    var (input, output) := t.saved.value;
    FinishAppends(chats, id, t, [Human(input), Ai(output)]);
    assert Snapshot([Human(input), Ai(output)]) == Pair(input, output);
    AppendWellFormed(chats[id], Pair(input, output));
  }

  /**
   * Over an existing well-formed document a completed turn succeeds, returns
   * the last response, and leaves the stored list followed by the turn's new
   * messages, re-typed.
   */
  lemma {:induction false} RunStoresTurn(
    chats: map<AgentId, seq<StoredMessage>>, agent: Agent, message: string, matches: Matcher, model: Model)
    requires agent.id in chats && AllWellFormed(chats[agent.id])
    requires Invoke(agent, Initial(ToMessages(chats[agent.id]), message), matches, model).Ok?
    ensures var run := RunTurn(chats, agent, message, matches, model);
      var t := Invoke(agent, Initial(ToMessages(chats[agent.id]), message), matches, model).value;
      && |chats[agent.id]| <= |t.final.messages|
      && run.result.Ok?
      && run.result.value.response == t.final.state.lastResponse.value
      && run.chats[agent.id] == chats[agent.id] + Snapshot(t.final.messages[|chats[agent.id]|..])
  {
    var prior := ToMessages(chats[agent.id]);
    var t := Invoke(agent, Initial(prior, message), matches, model).value;
    RunOverDocument(chats, agent, message, matches, model);
    TurnResponds(agent, prior, message, matches, model);
    FinishExtends(chats, agent.id, t);
  }

  /** After a blank input the stored list gains exactly the guard message, and stays well-formed. */
  lemma {:induction false} RunPersistsGuard(
    chats: map<AgentId, seq<StoredMessage>>, agent: Agent, message: string, matches: Matcher, model: Model)
    requires agent.id in chats && AllWellFormed(chats[agent.id])
    requires Invoke(agent, Initial(ToMessages(chats[agent.id]), message), matches, model).Ok?
    requires Trim(message) == ""
    ensures var run := RunTurn(chats, agent, message, matches, model);
      && run.result.Ok? && run.result.value.response == GuardMessage
      && run.chats[agent.id] == chats[agent.id] + [StoredMessage(AiType, GuardMessage)]
      && AllWellFormed(run.chats[agent.id])
  {
    var t := Invoke(agent, Initial(ToMessages(chats[agent.id]), message), matches, model).value;
    RunOverDocument(chats, agent, message, matches, model);
    TurnGuard(agent, ToMessages(chats[agent.id]), message, matches, model);
    FinishSingle(chats, agent.id, t, GuardMessage);
  }

  /**
   * After a refused input the stored list gains the refusal text alone, with
   * no human turn, and stays well-formed.
   */
  lemma {:induction false} RunPersistsRefusal(
    chats: map<AgentId, seq<StoredMessage>>, agent: Agent, message: string, matches: Matcher, model: Model)
    requires agent.id in chats && AllWellFormed(chats[agent.id])
    requires Invoke(agent, Initial(ToMessages(chats[agent.id]), message), matches, model).Ok?
    requires Trim(message) != "" && !Validate(agent, message, matches, model).value.isValid
    ensures var run := RunTurn(chats, agent, message, matches, model);
      var refusal := Validate(agent, message, matches, model).value.message;
      && run.result.Ok? && run.result.value.response == refusal
      && run.chats[agent.id] == chats[agent.id] + [StoredMessage(AiType, refusal)]
      && AllWellFormed(run.chats[agent.id])
  {
    var t := Invoke(agent, Initial(ToMessages(chats[agent.id]), message), matches, model).value;
    RunOverDocument(chats, agent, message, matches, model);
    TurnRefusal(agent, ToMessages(chats[agent.id]), message, matches, model);
    FinishSingle(chats, agent.id, t, Validate(agent, message, matches, model).value.message);
  }

  /**
   * After an admitted input the stored list gains exactly the saved
   * human/ai pair, the reply (or the apology) is the response, and the list
   * stays well-formed: the append of `saveContext` and the final overwrite agree.
   */
  lemma {:induction false} RunPersistsExchange(
    chats: map<AgentId, seq<StoredMessage>>, agent: Agent, message: string, matches: Matcher, model: Model)
    requires agent.id in chats && AllWellFormed(chats[agent.id])
    requires Invoke(agent, Initial(ToMessages(chats[agent.id]), message), matches, model).Ok?
    requires Trim(message) != "" && Validate(agent, message, matches, model).value.isValid
    ensures var run := RunTurn(chats, agent, message, matches, model);
      var t := Invoke(agent, Initial(ToMessages(chats[agent.id]), message), matches, model).value;
      && t.saved.Some?
      && run.result.Ok? && run.result.value.response == t.saved.value.1
      && run.chats[agent.id] == AppendPair(chats, agent.id, Trim(message), t.saved.value.1)[agent.id]
      && AllWellFormed(run.chats[agent.id])
  {
    var t := Invoke(agent, Initial(ToMessages(chats[agent.id]), message), matches, model).value;
    RunOverDocument(chats, agent, message, matches, model);
    TurnExchange(agent, ToMessages(chats[agent.id]), message, matches, model);
    FinishPair(chats, agent.id, t);
  }

  /**
   * Without a history document a turn succeeds only on the model path, where
   * `saveContext` creates the document that the final write then finds; on the
   * guard and refusal paths nothing is created and the run fails.
   */
  lemma {:induction false} RunWithoutDocument(
    chats: map<AgentId, seq<StoredMessage>>, agent: Agent, message: string, matches: Matcher, model: Model)
    requires agent.id !in chats
    requires Invoke(agent, Initial([], message), matches, model).Ok?
    ensures var run := RunTurn(chats, agent, message, matches, model);
      var t := Invoke(agent, Initial([], message), matches, model).value;
      && (t.saved.None? ==> run == Run(Err(RunFailure + NullMessages), chats))
      && (t.saved.Some? ==> run.result.Ok? && run.chats[agent.id] == Pair(t.saved.value.0, t.saved.value.1))
  {
    assert MemoryVariables(LookupChats(chats, agent.id)) == [];
    var t := Invoke(agent, Initial([], message), matches, model).value;
    assert RunTurn(chats, agent, message, matches, model) == Finish(chats, agent.id, t);
    TurnResponds(agent, [], message, matches, model);
    FinishWithoutDocument(chats, agent.id, t);
    if t.saved.Some? {
      var (input, output) := t.saved.value;
      assert t.final.messages == [Human(input), Ai(output)];
      assert Snapshot([Human(input), Ai(output)]) == Pair(input, output);
    }
  }

  /** The service object: the store, and the two registries keyed by agent id. */
  /**
   * A name and instructions both blank after trimming are refused with both
   * paths' messages, name first, joined by a comma; one blank field gives
   * that field's message alone.
   */
  lemma AgentValidationMessages(name: string, instructions: string)
    ensures name == "" && instructions != "" ==>
      ValidationFailed("Agent", AgentSchemaErrors(name, instructions)) == ValidationFailed("Agent", [NameMissing])
    ensures name != "" && instructions == "" ==>
      ValidationFailed("Agent", AgentSchemaErrors(name, instructions)) == ValidationFailed("Agent", [InstructionsMissing])
    ensures name == "" && instructions == "" ==>
      ValidationFailed("Agent", AgentSchemaErrors(name, instructions))
        == ValidationFailed("Agent", [NameMissing]) + ", " + InstructionsMissing
  {
    if name == "" && instructions == "" {
      var errors := AgentSchemaErrors(name, instructions);
      assert errors == [NameMissing, InstructionsMissing];
      assert errors[1..] == [InstructionsMissing];
    }
  }

  class AgentService {
    const db: Database
    var agentGraphs: map<AgentId, AgentGraph>
    var memoryStore: map<AgentId, ChatMemory>

    /**
     * What every member keeps: agent documents are keyed by their id, every
     * registered graph has a registered memory, and graph and memory belong
     * to the agent whose id keys them and use the same store.
     */
    ghost predicate Valid()
      reads this, db
    {
      && (forall id :: id in db.agents ==> db.agents[id].id == id)
      && agentGraphs.Keys <= memoryStore.Keys <= db.agents.Keys
      && (forall id :: id in memoryStore ==> memoryStore[id].agentId == id && memoryStore[id].db == db)
      && (forall id :: id in agentGraphs ==> agentGraphs[id].memory == memoryStore[id] && agentGraphs[id].agent.id == id)
    }

    /** Lines 31-33: both registries start empty. */
    constructor (db: Database)
      requires forall id :: id in db.agents ==> db.agents[id].id == id
      ensures Valid()
      ensures this.db == db && agentGraphs == map[] && memoryStore == map[]
    {
      this.db := db;
      agentGraphs := map[];
      memoryStore := map[];
    }

    /**
     * `initializeAgentGraph(agent)` (lines 133-434): reuse the agent's memory
     * or register a new one, then register the graph.
     */
    method InitializeAgentGraph(agent: Agent)
      requires Valid() && agent.id in db.agents
      modifies this
      ensures Valid()
      ensures agent.id in agentGraphs && agentGraphs == old(agentGraphs)[agent.id := agentGraphs[agent.id]]
      ensures agentGraphs[agent.id].agent == agent
      ensures memoryStore.Keys == old(memoryStore.Keys) + {agent.id}
      ensures forall id :: id in old(memoryStore) ==> memoryStore[id] == old(memoryStore[id])
    {
      if agent.id !in memoryStore {
        var memory := new ChatMemory(agent.id, db);
        memoryStore := memoryStore[agent.id := memory];
      }
      agentGraphs := agentGraphs[agent.id := AgentGraph(agent, memoryStore[agent.id])];
    }

    /**
     * `runAgent(agentId, message)` (lines 436-506). A missing graph is built
     * from the agent document and the call re-enters once; the re-entered
     * call's promise is returned without `await`, so its rejection reaches
     * the caller wrapped only once.
     */
    method RunAgent(agentId: AgentId, message: string, matches: Matcher, model: Model) returns (r: Result<RunReply>)
      requires Valid()
      modifies this, db
      ensures Valid()
      ensures db.agents == old(db.agents)
      ensures agentId in old(agentGraphs) ==>
        && r == RunTurn(old(db.chats), old(agentGraphs[agentId].agent), message, matches, model).result
        && db.chats == RunTurn(old(db.chats), old(agentGraphs[agentId].agent), message, matches, model).chats
        && agentGraphs == old(agentGraphs) && memoryStore == old(memoryStore)
      ensures agentId !in old(agentGraphs) && agentId !in old(db.agents) ==>
        && r == Err(RunFailure + "Failed to get agent: Agent not found")
        && db.chats == old(db.chats) && agentGraphs == old(agentGraphs) && memoryStore == old(memoryStore)
      ensures agentId !in old(agentGraphs) && agentId in old(db.agents) ==>
        && r == RunTurn(old(db.chats), old(db.agents[agentId]), message, matches, model).result
        && db.chats == RunTurn(old(db.chats), old(db.agents[agentId]), message, matches, model).chats
        && agentGraphs.Keys == old(agentGraphs.Keys) + {agentId}
        && agentGraphs[agentId].agent == old(db.agents[agentId])
        && agentGraphs == old(agentGraphs)[agentId := agentGraphs[agentId]]
        && memoryStore.Keys == old(memoryStore.Keys) + {agentId}
        && (forall id :: id in old(memoryStore) ==> memoryStore[id] == old(memoryStore[id]))
      decreases if agentId in agentGraphs then 0 else 1
    {
      if agentId !in agentGraphs {
        var found := GetAgentById(db.agents, agentId);
        if found.Err? {
          return Err(RunFailure + found.error);
        }
        InitializeAgentGraph(found.value);
        r := RunAgent(agentId, message, matches, model);
        return;
      }
      r := RunGraph(agentId, message, matches, model);
    }

    /**
     * The body of `runAgent` once the graph is registered (lines 450-501):
     * load the memory, invoke the graph, let the process node's save go
     * through the memory, check the last response, and overwrite the document.
     */
    method RunGraph(agentId: AgentId, message: string, matches: Matcher, model: Model) returns (r: Result<RunReply>)
      requires Valid() && agentId in agentGraphs
      modifies db
      ensures Valid()
      ensures db.agents == old(db.agents)
      ensures r == RunTurn(old(db.chats), agentGraphs[agentId].agent, message, matches, model).result
      ensures db.chats == RunTurn(old(db.chats), agentGraphs[agentId].agent, message, matches, model).chats
    {
      var graph := agentGraphs[agentId];
      var memory := memoryStore[agentId];
      var prior := memory.LoadMemoryVariables();
      assert prior == MemoryVariables(LookupChats(db.chats, agentId));
      var invoked := Invoke(graph.agent, Initial(prior, message), matches, model);
      if invoked.Err? {
        return Err(RunFailure + invoked.error);
      }
      var turn := invoked.value;
      TurnResponds(graph.agent, prior, message, matches, model);
      assert RunTurn(db.chats, graph.agent, message, matches, model) == Finish(db.chats, agentId, turn);
      r := Persist(agentId, turn);
    }

    /**
     * What follows the graph (lines 474-501): the process node's save goes
     * through the agent's memory, the last response is checked, and the
     * document is overwritten with the whole list. The graph only ever saves
     * two non-empty texts.
     */
    method Persist(agentId: AgentId, turn: Turn) returns (r: Result<RunReply>)
      requires Valid() && agentId in memoryStore
      requires turn.saved.Some? ==> turn.saved.value.0 != "" && turn.saved.value.1 != ""
      modifies db
      ensures Valid()
      ensures db.agents == old(db.agents)
      ensures r == Finish(old(db.chats), agentId, turn).result
      ensures db.chats == Finish(old(db.chats), agentId, turn).chats
    {
      if turn.saved.Some? {
        var (input, output) := turn.saved.value;
        var _ := memoryStore[agentId].SaveContext(Some(Some(input)), Some(Some(output)));
      }
      if turn.final.state.lastResponse.None? || turn.final.state.lastResponse.value == "" {
        return Err(RunFailure + NoResponse);
      }
      if agentId !in db.chats {
        return Err(RunFailure + NullMessages);
      }
      var updated := Snapshot(turn.final.messages);
      db.chats := db.chats[agentId := updated];
      r := Ok(RunReply(turn.final.state.lastResponse.value, updated));
    }

    /**
     * `createAgent(agentData)` (lines 79-131). A missing field is the empty
     * string; the schema trims every field before its `required` check, and
     * `newId` is the id the new document is given.
     */
    method CreateAgent(name: string, instructions: string, modelName: string, newId: AgentId) returns (r: Result<Agent>)
      requires Valid()
      requires newId !in db.agents && newId !in db.chats
      modifies this, db
      ensures Valid()
      ensures (name == "" || instructions == "") ==>
        r == Err(CreateFailure + "Name and instructions are required")
      ensures name != "" && instructions != "" && (Trim(name) == "" || Trim(instructions) == "") ==>
        r == Err(CreateFailure + ValidationFailed("Agent", AgentSchemaErrors(Trim(name), Trim(instructions))))
      ensures r.Err? ==>
        db.agents == old(db.agents) && db.chats == old(db.chats)
        && agentGraphs == old(agentGraphs) && memoryStore == old(memoryStore)
      ensures r.Ok? <==> Trim(name) != "" && Trim(instructions) != ""
      ensures r.Ok? ==>
        && r.value == Agent(newId, Trim(name), Trim(instructions), Trim(if modelName != "" then modelName else DefaultModel))
        && db.agents == old(db.agents)[newId := r.value]
        && db.chats == old(db.chats)[newId := []]
        && agentGraphs.Keys == old(agentGraphs.Keys) + {newId} && agentGraphs[newId].agent == r.value
        && agentGraphs == old(agentGraphs)[newId := agentGraphs[newId]]
        && memoryStore.Keys == old(memoryStore.Keys) + {newId}
        && (forall id :: id in old(memoryStore) ==> memoryStore[id] == old(memoryStore[id]))
    {
      if name == "" || instructions == "" {
        return Err(CreateFailure + "Name and instructions are required");
      }
      var agent := Agent(newId, Trim(name), Trim(instructions), Trim(if modelName != "" then modelName else DefaultModel));
      var errors := AgentSchemaErrors(agent.name, agent.instructions);
      if errors != [] {
        return Err(CreateFailure + ValidationFailed("Agent", errors));
      }
      db.agents := db.agents[newId := agent];
      db.chats := db.chats[newId := []];
      var memory := new ChatMemory(newId, db);
      memoryStore := memoryStore[newId := memory];
      InitializeAgentGraph(agent);
      r := Ok(agent);
    }

    /** `getChatHistory` (lines 57-64): the stored list, or an empty one. */
    method GetChatHistory(agentId: AgentId) returns (messages: seq<StoredMessage>)
      ensures agentId in db.chats ==> messages == db.chats[agentId]
      ensures agentId !in db.chats ==> messages == []
    {
      messages := if agentId in db.chats then db.chats[agentId] else [];
    }

    /**
     * The effective `clearChatHistory` (lines 508-538): clear the memory if
     * one is registered, then empty the document, which must exist.
     */
    method ClearChatHistory(agentId: AgentId) returns (r: Result<seq<StoredMessage>>)
      requires Valid()
      modifies db
      ensures Valid()
      ensures r.Ok? <==> agentId in old(db.chats)
      ensures r.Ok? ==> r.value == []
      ensures r.Err? ==> r.error == "Failed to clear chat history: " + NullMessages
      ensures db.chats == ClearChats(old(db.chats), agentId)
      ensures db.agents == old(db.agents)
    {
      if agentId in memoryStore {
        memoryStore[agentId].Clear();
      }
      if agentId !in db.chats {
        return Err("Failed to clear chat history: " + NullMessages);
      }
      db.chats := db.chats[agentId := []];
      r := Ok([]);
    }

    /**
     * `deleteAgent` (lines 540-565): a missing agent changes nothing; otherwise
     * the document, its history and both registry entries go, and no other
     * agent is touched.
     */
    method DeleteAgent(agentId: AgentId) returns (r: Result<string>)
      requires Valid()
      modifies this, db
      ensures Valid()
      ensures r.Err? <==> agentId !in old(db.agents)
      ensures r.Err? ==>
        && r.error == "Failed to delete agent: Agent not found"
        && db.agents == old(db.agents) && db.chats == old(db.chats)
        && agentGraphs == old(agentGraphs) && memoryStore == old(memoryStore)
      ensures r.Ok? ==>
        && r.value == "Agent deleted successfully"
        && db.agents == old(db.agents) - {agentId}
        && db.chats == old(db.chats) - {agentId}
        && agentGraphs == old(agentGraphs) - {agentId}
        && memoryStore == old(memoryStore) - {agentId}
    {
      if agentId !in db.agents {
        return Err("Failed to delete agent: Agent not found");
      }
      db.agents := db.agents - {agentId};
      if agentId in memoryStore {
        memoryStore[agentId].Clear();
        memoryStore := memoryStore - {agentId};
      }
      db.chats := db.chats - {agentId};
      agentGraphs := agentGraphs - {agentId};
      r := Ok("Agent deleted successfully");
    }
  }
}
