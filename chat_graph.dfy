/**
 * The single-node chat graph of backend/utils/ChatGraph.js: a graph whose
 * one node loads the agent's stored history, asks the model, and writes the
 * whole extended list back over the document. Unlike the memory adapter, it
 * keeps every record on load, and it replaces the list instead of appending
 * to it.
 */
module SingleNodeChat {
  import opened Wrappers
  import opened AgentModels
  import opened Messages
  import opened MongoDbMemory

  const DefaultModelName := "gpt-3.5-turbo"

  /** `msg.type === "human" ? new HumanMessage(..) : new AIMessage(..)` (lines 52-56). */
  function FromStored(m: StoredMessage): (r: Message)
    ensures r.content == m.content
    ensures r.Human? <==> m.kind == HumanType
    ensures !r.Other?
  {
    if m.kind == HumanType then Human(m.content) else Ai(m.content)
  }

  /** `chatHistory.messages.map(..)`: every stored record, in order, nothing dropped. */
  function History(h: seq<StoredMessage>): (r: seq<Message>)
    ensures |r| == |h|
    ensures forall i :: 0 <= i < |h| ==> r[i] == FromStored(h[i])
  {
    if h == [] then [] else [FromStored(h[0])] + History(h[1..])
  }

  /** What `loadHistory` returns over the collection: the converted list, or an empty one without a document. */
  function Loaded(chats: map<AgentId, seq<StoredMessage>>, id: AgentId): (r: seq<Message>)
    ensures id !in chats ==> r == []
    ensures id in chats ==> |r| == |chats[id]|
  {
    if id in chats then History(chats[id]) else []
  }

  /** The `messages` reducer `(x, y) => x.concat(y)` (lines 10-14): the old list followed by the new one. */
  function Concat(x: seq<Message>, y: seq<Message>): (r: seq<Message>)
    ensures |r| == |x| + |y|
    ensures x <= r && r[|x|..] == y
  {
    x + y
  }

  /** What the node returns: the new list and the reply's content. */
  datatype NodeUpdate = NodeUpdate(messages: seq<Message>, response: string)

  /** The rendered template of lines 32-42, sent to the model as one text. */
  function ChatPrompt(instructions: string, history: seq<Message>, input: string): seq<PromptMessage>
  {
    [Formatted(ChatGraphPrompt(instructions, history, input))]
  }

  /**
   * The node body `callModel(state)` (lines 85-107) over a loaded history: a
   * rejected model call rejects the node; otherwise the history is extended
   * by the input and the reply, and the reply's content is the response.
   */
  function ModelNode(instructions: string, modelName: string, history: seq<Message>, input: string, model: Model): (r: Result<NodeUpdate>)
    ensures r.Ok? <==> model(modelName, ChatPrompt(instructions, history, input)).Content?
    ensures r.Err? ==> r.error == model(modelName, ChatPrompt(instructions, history, input)).error
    ensures r.Ok? ==>
      && |r.value.messages| == |history| + 2
      && history <= r.value.messages
      && r.value.messages[|history|] == Human(input)
      && r.value.messages[|history| + 1] == Ai(r.value.response)
      && r.value.response == model(modelName, ChatPrompt(instructions, history, input)).text
  {
    match model(modelName, ChatPrompt(instructions, history, input))
    case Failure(e) => Err(e)
    case Content(t) => Ok(NodeUpdate(history + [Human(input), Ai(t)], t))
  }

  lemma {:induction false} SnapshotSpec(ms: seq<Message>, i: nat)
    requires i < |ms|
    ensures Snapshot(ms)[i] == ToStored(ms[i])
  {
  }

  /**
   * Saving a list and loading it back keeps its length, order, contents and
   * the human/ai distinction; a list of human and AI messages only comes
   * back unchanged.
   */
  lemma {:induction false} LoadAfterSave(chats: map<AgentId, seq<StoredMessage>>, id: AgentId, ms: seq<Message>)
    ensures var r := Loaded(chats[id := Snapshot(ms)], id);
      && |r| == |ms|
      && (forall i :: 0 <= i < |ms| ==> r[i].content == ms[i].content && (r[i].Human? <==> ms[i].Human?))
      && ((forall i :: 0 <= i < |ms| ==> !ms[i].Other?) ==> r == ms)
  {
    var r := Loaded(chats[id := Snapshot(ms)], id);
    assert r == History(Snapshot(ms));
    if forall i :: 0 <= i < |ms| ==> !ms[i].Other? {
      forall i | 0 <= i < |ms| ensures r[i] == ms[i] {
        SnapshotSpec(ms, i);
      }
    }
  }

  /** A history loaded from records of the two schema types is written back as the same records. */
  lemma {:induction false} SaveAfterLoad(h: seq<StoredMessage>)
    requires forall i :: 0 <= i < |h| ==> h[i].kind != Untyped
    ensures Snapshot(History(h)) == h
  {
    var s := Snapshot(History(h));
    forall i | 0 <= i < |h| ensures s[i] == h[i] {
      SnapshotSpec(History(h), i);
    }
  }

  /**
   * After a completed turn the document holds the previous records, each
   * re-written with its content and its human/ai side kept (an untyped record
   * becomes 'ai'), followed by the human input and the AI reply.
   */
  lemma {:induction false} TurnRewritesHistory(
    chats: map<AgentId, seq<StoredMessage>>, id: AgentId, instructions: string, modelName: string, input: string, model: Model)
    requires ModelNode(instructions, modelName, Loaded(chats, id), input, model).Ok?
    ensures var u := ModelNode(instructions, modelName, Loaded(chats, id), input, model).value;
      var old_ := if id in chats then chats[id] else [];
      var stored := Snapshot(u.messages);
      && |stored| == |old_| + 2
      && (forall i :: 0 <= i < |old_| ==>
            stored[i].content == old_[i].content && stored[i].kind != Untyped
            && (stored[i].kind == HumanType <==> old_[i].kind == HumanType))
      && stored[|old_|..] == Pair(input, u.response)
  {
    var u := ModelNode(instructions, modelName, Loaded(chats, id), input, model).value;
    var old_ := if id in chats then chats[id] else [];
    var stored := Snapshot(u.messages);
    assert Loaded(chats, id) == History(old_);
    forall i | 0 <= i < |old_| ensures stored[i].content == old_[i].content && stored[i].kind != Untyped
      && (stored[i].kind == HumanType <==> old_[i].kind == HumanType) {
      SnapshotSpec(u.messages, i);
      assert u.messages[i] == History(old_)[i];
    }
    SnapshotSpec(u.messages, |old_|);
    SnapshotSpec(u.messages, |old_| + 1);
  }

  /**
   * Over records of the two schema types a turn appends exactly the pair to
   * the stored list, and the next load sees the previous history followed
   * by the input and the reply.
   */
  lemma {:induction false} TurnAppendsPair(
    chats: map<AgentId, seq<StoredMessage>>, id: AgentId, instructions: string, modelName: string, input: string, model: Model)
    requires ModelNode(instructions, modelName, Loaded(chats, id), input, model).Ok?
    requires id in chats ==> forall i :: 0 <= i < |chats[id]| ==> chats[id][i].kind != Untyped
    ensures var u := ModelNode(instructions, modelName, Loaded(chats, id), input, model).value;
      && Snapshot(u.messages) == (if id in chats then chats[id] else []) + Pair(input, u.response)
      && Loaded(chats[id := Snapshot(u.messages)], id) == Loaded(chats, id) + [Human(input), Ai(u.response)]
  {
    var u := ModelNode(instructions, modelName, Loaded(chats, id), input, model).value;
    var old_ := if id in chats then chats[id] else [];
    assert Loaded(chats, id) == History(old_);
    assert u.messages == History(old_) + [Human(input), Ai(u.response)];
    SnapshotAppend(History(old_), [Human(input), Ai(u.response)]);
    SaveAfterLoad(old_);
    assert Snapshot([Human(input), Ai(u.response)]) == Pair(input, u.response);
    LoadAfterSave(chats, id, u.messages);
  }

  /** `ChatGraph`: the agent it serves, its model and instructions, and the store. */
  class ChatGraph {
    const agentId: AgentId
    const modelName: string
    const instructions: string
    const db: Database

    /** Lines 24-47: a missing model name defaults to "gpt-3.5-turbo". */
    constructor (agentId: AgentId, modelName: Option<string>, instructions: string, db: Database)
      ensures this.agentId == agentId && this.instructions == instructions && this.db == db
      ensures this.modelName == (if modelName.Some? then modelName.value else DefaultModelName)
    {
      this.agentId := agentId;
      this.modelName := if modelName.Some? then modelName.value else DefaultModelName;
      this.instructions := instructions;
      this.db := db;
    }

    /** `loadHistory()` (lines 49-59). */
    method LoadHistory() returns (ms: seq<Message>)
      ensures ms == Loaded(db.chats, agentId)
    {
      if agentId in db.chats {
        ms := History(db.chats[agentId]);
      } else {
        ms := [];
      }
    }

    /** `saveHistory(messages)` (lines 61-78): `$set` with upsert replaces the whole list, creating the document. */
    method SaveHistory(ms: seq<Message>)
      modifies db
      ensures db.chats == old(db.chats)[agentId := Snapshot(ms)]
      ensures db.agents == old(db.agents)
    {
      db.chats := db.chats[agentId := Snapshot(ms)];
    }

    /** The node body (lines 85-107): load, ask the model, save the whole new list, return the update. */
    method ModelStep(input: string, model: Model) returns (r: Result<NodeUpdate>)
      modifies db
      ensures r == ModelNode(instructions, modelName, Loaded(old(db.chats), agentId), input, model)
      ensures r.Ok? ==> db.chats == old(db.chats)[agentId := Snapshot(r.value.messages)]
      ensures r.Err? ==> db.chats == old(db.chats)
      ensures db.agents == old(db.agents)
    {
      var history := LoadHistory();
      var reply := model(modelName, ChatPrompt(instructions, history, input));
      if reply.Failure? {
        return Err(reply.error);
      }
      var newMessages := history + [Human(input), Ai(reply.text)];
      SaveHistory(newMessages);
      r := Ok(NodeUpdate(newMessages, reply.text));
    }

    /**
     * `callModel(state)` (lines 122-136): run the graph from an empty message
     * list and return the reply's content.
     */
    method CallModel(input: string, model: Model) returns (r: Result<string>)
      modifies db
      ensures var u := ModelNode(instructions, modelName, Loaded(old(db.chats), agentId), input, model);
        && (r.Ok? <==> u.Ok?)
        && (r.Ok? ==> r.value == u.value.response && db.chats == old(db.chats)[agentId := Snapshot(u.value.messages)])
        && (r.Err? ==> r.error == u.error && db.chats == old(db.chats))
      ensures db.agents == old(db.agents)
    {
      var u := ModelStep(input, model);
      if u.Err? {
        return Err(u.error);
      }
      r := Ok(u.value.response);
    }

    /** `clearHistory()` (lines 138-148): `$set` to empty without upsert. */
    method ClearHistory()
      modifies db
      ensures db.chats == ClearChats(old(db.chats), agentId)
      ensures db.agents == old(db.agents)
    {
      if agentId in db.chats {
        db.chats := db.chats[agentId := []];
      }
    }
  }
}
