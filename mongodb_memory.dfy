/**
 * backend/utils/MongoDBMemory.js: the per-agent conversation memory backed
 * by the agent's ChatHistory document. Loading filters and converts the stored
 * list; saving appends one human/ai pair; clearing empties the list.
 */
module MongoDbMemory {
  import opened Wrappers
  import opened JsText
  import opened AgentModels
  import opened Messages

  /** What `ChatHistory.findOne` gives: a document's messages, no document, or a thrown error. */
  datatype Lookup = Found(messages: seq<StoredMessage>) | Missing | LookupError(reason: string)

  /** The lookup the adapter performs against the in-memory collections. */
  function LookupChats(chats: map<AgentId, seq<StoredMessage>>, id: AgentId): (l: Lookup)
    ensures l.Found? <==> id in chats
    ensures l.Found? ==> l.messages == chats[id]
    ensures !l.LookupError?
  {
    if id in chats then Found(chats[id]) else Missing
  }

  /** 'human' -> HumanMessage, 'ai' -> AIMessage, any other record is handed on as it is. */
  function ToMessage(m: StoredMessage): (r: Message)
    ensures r.content == m.content
    ensures r.Human? <==> m.kind == HumanType
    ensures r.Ai? <==> m.kind == AiType
  {
    match m.kind
    case HumanType => Human(m.content)
    case AiType => Ai(m.content)
    case Untyped => Other(m.content)
  }

  /** Every stored message converted, in stored order (the filter aside). */
  function ToMessages(h: seq<StoredMessage>): (r: seq<Message>)
    ensures |r| == |h|
    ensures forall i :: 0 <= i < |h| ==> r[i] == ToMessage(h[i])
  {
    if h == [] then [] else [ToMessage(h[0])] + ToMessages(h[1..])
  }

  /** The filter and map of lines 24-33. */
  function LoadMessages(h: seq<StoredMessage>): seq<Message>
  {
    if h == [] then []
    else if h[0].content != "" then [ToMessage(h[0])] + LoadMessages(h[1..])
    else LoadMessages(h[1..])
  }

  /** Loading keeps one message per stored record with a content. */
  lemma {:induction false} LoadMessagesCount(h: seq<StoredMessage>)
    ensures |LoadMessages(h)| == |set i | 0 <= i < |h| && h[i].content != ""|
  {
    if h != [] {
      LoadMessagesCount(h[1..]);
      assert forall i :: 1 <= i < |h| ==> h[i] == h[1..][i - 1];
      CountPositionsCons(set i | 0 <= i < |h| && h[i].content != "",
        set i | 0 <= i < |h[1..]| && h[1..][i].content != "", |h|, h[0].content != "");
    }
  }

  /**
   * Loading drops exactly the messages with a falsy content and converts the
   * others, each once, keeping their order.
   */
  lemma {:induction false} LoadMessagesSpec(h: seq<StoredMessage>)
    ensures var r := LoadMessages(h);
      && |r| <= |h|
      && |r| == |set i | 0 <= i < |h| && h[i].content != ""|
      && (forall i :: 0 <= i < |r| ==> r[i].content != "")
      && (forall i :: 0 <= i < |h| && h[i].content != "" ==> ToMessage(h[i]) in r)
      && Subseq(r, ToMessages(h))
  {
    LoadMessagesCount(h);
    if h != [] {
      var rest := LoadMessages(h[1..]);
      LoadMessagesSpec(h[1..]);
      assert forall i :: 1 <= i < |h| ==> h[i] == h[1..][i - 1];
      assert ToMessages(h) == [ToMessage(h[0])] + ToMessages(h[1..]);
      if h[0].content != "" {
        SubseqCons(ToMessage(h[0]), rest, ToMessages(h[1..]));
      } else {
        SubseqSkip(ToMessage(h[0]), rest, ToMessages(h[1..]));
      }
    }
  }

  /** `loadMemoryVariables` (lines 16-40): no document and a failed lookup both give an empty list. */
  function MemoryVariables(l: Lookup): (r: seq<Message>)
    ensures !l.Found? ==> r == []
    ensures l.Found? ==> r == LoadMessages(l.messages)
  {
    match l
    case Found(h) => LoadMessages(h)
    case Missing => []
    case LookupError(_) => []
  }

  /** Loading distributes over concatenation of stored lists. */
  lemma {:induction false} LoadAppend(a: seq<StoredMessage>, b: seq<StoredMessage>)
    ensures LoadMessages(a + b) == LoadMessages(a) + LoadMessages(b)
    decreases |a|
  {
    if a == [] {
      assert a + b == b;
    } else {
      assert (a + b)[1..] == a[1..] + b;
      LoadAppend(a[1..], b);
    }
  }

  /** Over a well-formed list nothing is dropped: loading is exactly the element-wise conversion. */
  lemma {:induction false} LoadWellFormed(h: seq<StoredMessage>)
    requires AllWellFormed(h)
    ensures LoadMessages(h) == ToMessages(h)
    ensures forall i :: 0 <= i < |h| ==>
      LoadMessages(h)[i] == (if h[i].kind == HumanType then Human(h[i].content) else Ai(h[i].content))
  {
    if h != [] {
      assert AllWellFormed(h[1..]) by {
        forall i | 0 <= i < |h[1..]| ensures WellFormed(h[1..][i]) { assert h[1..][i] == h[i + 1]; }
      }
      LoadWellFormed(h[1..]);
      assert WellFormed(h[0]);
    }
  }

  /** A well-formed stored list survives a load followed by a snapshot unchanged. */
  lemma {:induction false} SnapshotOfLoad(h: seq<StoredMessage>)
    requires AllWellFormed(h)
    ensures Snapshot(LoadMessages(h)) == h
  {
    LoadWellFormed(h);
    var s := Snapshot(LoadMessages(h));
    forall i | 0 <= i < |h| ensures s[i] == h[i] {
      assert WellFormed(h[i]);
    }
  }

  /** The message pair `saveContext` stores for one exchange. */
  function Pair(input: string, output: string): (r: seq<StoredMessage>)
    ensures |r| == 2 && r[0].kind == HumanType && r[1].kind == AiType
    ensures r[0].content == input && r[1].content == output
  {
    [StoredMessage(HumanType, input), StoredMessage(AiType, output)]
  }

  /**
   * The argument checks of lines 45-54. `values` is None when the
   * `inputValues`/`outputValues` object is missing; a field is None when it is
   * missing or not a string.
   */
  function CheckContext(inputValues: Option<Option<string>>, outputValues: Option<Option<string>>): (r: Result<(string, string)>)
    ensures r.Ok? <==> (inputValues.Some? && inputValues.value.Some? && inputValues.value.value != ""
                        && outputValues.Some? && outputValues.value.Some? && outputValues.value.value != "")
    ensures r.Ok? ==> r.value == (inputValues.value.value, outputValues.value.value)
    ensures (inputValues.None? || outputValues.None?) ==> r == Err("Invalid input or output values")
    ensures (inputValues.Some? && outputValues.Some? && !r.Ok?) ==> r == Err("Input and output must be valid strings")
  {
    if inputValues.None? || outputValues.None? then Err("Invalid input or output values")
    else
      var input := inputValues.value;
      var output := outputValues.value;
      if input.None? || input.value == "" || output.None? || output.value == "" then
        Err("Input and output must be valid strings")
      else
        Ok((input.value, output.value))
  }

  /** The collection after `saveContext(i, o)` succeeds (lines 61-72). */
  function AppendPair(chats: map<AgentId, seq<StoredMessage>>, id: AgentId, input: string, output: string): (r: map<AgentId, seq<StoredMessage>>)
    ensures r.Keys == chats.Keys + {id}
    ensures r[id] == (if id in chats then chats[id] else []) + Pair(input, output)
    ensures forall other :: other in chats && other != id ==> r[other] == chats[other]
  {
    if id in chats then chats[id := chats[id] + Pair(input, output)]
    else chats[id := Pair(input, output)]
  }

  /** The collection after `clear()` (lines 84-93): the list emptied, no document created. */
  function ClearChats(chats: map<AgentId, seq<StoredMessage>>, id: AgentId): (r: map<AgentId, seq<StoredMessage>>)
    ensures r.Keys == chats.Keys
    ensures id in r ==> r[id] == []
    ensures forall other :: other in chats && other != id ==> r[other] == chats[other]
  {
    if id in chats then chats[id := []] else chats
  }

  /**
   * The round trip of a turn: over a well-formed history, loading after a
   * successful `saveContext(i, o)` yields the earlier load followed by the pair.
   */
  lemma SaveThenLoad(chats: map<AgentId, seq<StoredMessage>>, id: AgentId, input: string, output: string)
    requires id in chats ==> AllWellFormed(chats[id])
    requires input != "" && output != ""
    ensures MemoryVariables(LookupChats(AppendPair(chats, id, input, output), id))
         == MemoryVariables(LookupChats(chats, id)) + [Human(input), Ai(output)]
    ensures id in chats ==>
      MemoryVariables(LookupChats(AppendPair(chats, id, input, output), id))
        == ToMessages(chats[id]) + [Human(input), Ai(output)]
  {
    var before := if id in chats then chats[id] else [];
    LoadAppend(before, Pair(input, output));
    assert LoadMessages(Pair(input, output)) == [Human(input), Ai(output)] by {
      var p := Pair(input, output);
      assert p[1..] == [StoredMessage(AiType, output)];
      assert p[1..][1..] == [];
      assert LoadMessages(p[1..]) == [Ai(output)];
    }
    if id in chats {
      LoadWellFormed(chats[id]);
    }
  }

  /** `MongoDBMemory`: an agent's identity and the store its document lives in. */
  class ChatMemory {
    const agentId: AgentId
    const db: Database

    constructor (agentId: AgentId, db: Database)
      ensures this.agentId == agentId && this.db == db
    {
      this.agentId := agentId;
      this.db := db;
    }

    /** `loadMemoryVariables()`: the agent's stored list, filtered and converted. */
    method LoadMemoryVariables() returns (ms: seq<Message>)
      ensures agentId !in db.chats ==> ms == []
      ensures agentId in db.chats ==> ms == LoadMessages(db.chats[agentId])
    {
      var found := LookupChats(db.chats, agentId);
      ms := MemoryVariables(found);
    }

    /** `saveContext(inputValues, outputValues)`: checks both texts, then appends exactly one pair. */
    method SaveContext(inputValues: Option<Option<string>>, outputValues: Option<Option<string>>) returns (r: Result<bool>)
      modifies db
      ensures r.Ok? <==> CheckContext(inputValues, outputValues).Ok?
      ensures r.Ok? ==> r.value
      ensures r.Err? ==> r.error == CheckContext(inputValues, outputValues).error
      ensures r.Err? ==> db.chats == old(db.chats)
      ensures r.Ok? ==>
        var (input, output) := CheckContext(inputValues, outputValues).value;
        db.chats == AppendPair(old(db.chats), agentId, input, output)
      ensures db.agents == old(db.agents)
    {
      var checked := CheckContext(inputValues, outputValues);
      if checked.Err? {
        return Err(checked.error);
      }
      var (input, output) := checked.value;
      if agentId !in db.chats {
        db.chats := db.chats[agentId := Pair(input, output)];
      } else {
        db.chats := db.chats[agentId := db.chats[agentId] + Pair(input, output)];
      }
      r := Ok(true);
    }

    /** `clear()`: `$set` the messages to empty, without upsert. */
    method Clear()
      modifies db
      ensures db.chats == ClearChats(old(db.chats), agentId)
      ensures db.agents == old(db.agents)
    {
      if agentId in db.chats {
        db.chats := db.chats[agentId := []];
      }
    }
  }
}
