# Agents and pipelines: a Dafny model

This project models the core of a small agent platform. Each agent is a named
language-model persona with its own instructions. Users chat with an agent,
and every turn passes through a two-node graph:

- a **validate** node, which runs regular-expression guardrails and then a
  model-based capability check;
- a **process** node, which either refuses, guards against blank input, or
  asks the model. It saves the exchange through a MongoDB-backed memory
  adapter.

After the turn, the service writes the whole conversation back to the
agent's chat-history document.

The platform also runs **pipelines**: a pipeline is a list of named steps.
Two pieces of code execute them:

- the HTTP run route, which calls each step's helper in turn, threading
  outputs. The pipelines it runs are the ones the create route of the same
  router stores, with their steps as sent;
- a graph-based service, which numbers the steps when it creates a pipeline
  and chains one node per step when it runs one. No route of the router
  calls it.

Both write Execution documents.

A front-end wizard assembles pipelines from an action registry and can add
custom actions to it.

How the Dafny code is laid out:

- **One module per source file.** `LangGraphAgentService.js` is split into
  `AgentState` (the channel reducers), `Guardrails` (the validate node),
  `ProcessNode` (the process node) and `AgentService` (the service object).
- **External services are parameters.** The language model is an oracle
  `Model`, a function of the model name and the prompt. The regular-expression
  engine is a `Matcher`, a function of the pattern and the text.
- **MongoDB collections are maps** held by small classes, which methods
  update in place.
- **Pure logic is a function.** Every stateful operation is a method proved
  against such a function, and the properties the source relies on are
  lemmas about those functions.

## Model

| member | source | states |
|---|---|---|
| AgentState.ReduceMessages | backend/services/LangGraphAgentService.js:12-15 | the `messages` channel only ever extends: with an update the old list is a prefix and the update is the rest, without one the list is kept |
| AgentState.ReduceInput | backend/services/LangGraphAgentService.js:16-19 | an empty or absent input update keeps the old input, a non-empty one replaces it |
| AgentState.MergeResponse | backend/services/LangGraphAgentService.js:20-23 | object spread on `state`: each field present in the patch wins, every other field is kept |
| AgentState.MergeValidation | backend/services/LangGraphAgentService.js:24-27 | object spread on `validation`: each field present in the patch wins, every other field is kept |
| AgentState.Apply | backend/services/LangGraphAgentService.js:11-28 | one node update applied channel by channel with the four reducers; `MessagesOnlyGrow` and `FullPatchesReplace` state that the message list only grows and that full patches replace their channel while an omitted channel is kept |
| AgentState.Initial | backend/services/LangGraphAgentService.js:463-471 | the invocation state holds the loaded history, the input, a null last response, the history's length as count, and a passing validation |
| AgentState.MessagesOnlyGrow | backend/services/LangGraphAgentService.js:11-28 | no node update can shorten or rewrite the message list; its length grows by exactly the update's length |
| AgentState.FullPatchesReplace | backend/services/LangGraphAgentService.js:20-27 | a patch that sets every field replaces the channel, and an update that omits a channel leaves it untouched |
| Messages.ToStored | backend/services/LangGraphAgentService.js:480-483 | a message is stored with its content, as 'human' exactly when it is a human message and as 'ai' otherwise |
| Messages.Snapshot | backend/services/LangGraphAgentService.js:480-483 | the stored list has one record per message, in order, each being that message stored |
| Messages.SnapshotAppend | backend/services/LangGraphAgentService.js:480-483 | storing a concatenation is the concatenation of the stored parts |
| MongoDbMemory.LookupChats | backend/utils/MongoDBMemory.js:18-21 | the lookup finds a document exactly when the agent has one, and gives that document's list |
| MongoDbMemory.ToMessage | backend/utils/MongoDBMemory.js:26-33 | 'human' records become human messages and 'ai' records AI messages, with their content; any other record is passed on as it is |
| MongoDbMemory.ToMessages | backend/utils/MongoDBMemory.js:26-33 | one converted message per record, in order |
| MongoDbMemory.LoadMessages | backend/utils/MongoDBMemory.js:24-33 | the `filter` then `map` of the stored list; `LoadMessagesCount` and `LoadMessagesSpec` state that it keeps exactly the records with a content, each once, in order, converted |
| MongoDbMemory.LoadMessagesCount | backend/utils/MongoDBMemory.js:24-33 | loading gives one message per stored record with a content |
| MongoDbMemory.LoadMessagesSpec | backend/utils/MongoDBMemory.js:24-33 | loading keeps exactly the records with a content, each once, in order, each converted, and drops the rest |
| MongoDbMemory.MemoryVariables | backend/utils/MongoDBMemory.js:16-40 | no document and a failed lookup both give an empty list; otherwise the filtered, converted list |
| MongoDbMemory.LoadAppend | backend/utils/MongoDBMemory.js:24-33 | loading distributes over concatenation of stored lists |
| MongoDbMemory.LoadWellFormed | backend/utils/MongoDBMemory.js:24-33 | over records that all have a content and a type, nothing is dropped and each record converts to itself |
| MongoDbMemory.SnapshotOfLoad | backend/utils/MongoDBMemory.js:24-33 | a well-formed stored list, loaded and written back, is unchanged |
| MongoDbMemory.Pair | backend/utils/MongoDBMemory.js:57-58 | an exchange is stored as a human record with the input followed by an AI record with the output |
| MongoDbMemory.CheckContext | backend/utils/MongoDBMemory.js:45-54 | succeeds exactly when both values are present and both texts are non-empty; a missing object gives "Invalid input or output values", a bad text "Input and output must be valid strings" |
| MongoDbMemory.AppendPair | backend/utils/MongoDBMemory.js:61-72 | the agent's list gains exactly the pair at its end, and a document is created if none existed; other agents' lists are unchanged |
| MongoDbMemory.ClearChats | backend/utils/MongoDBMemory.js:84-93 | an existing list is emptied, no document is created, and other agents are unchanged |
| MongoDbMemory.SaveThenLoad | backend/utils/MongoDBMemory.js:42-78 | after a save, the next load gives the previous history followed by the human input and the AI output |
| MongoDbMemory.ChatMemory.LoadMemoryVariables | backend/utils/MongoDBMemory.js:16-40 | the method returns the loaded list of the agent's document, or an empty one |
| MongoDbMemory.ChatMemory.SaveContext | backend/utils/MongoDBMemory.js:42-78 | the method succeeds exactly when the check passes; it then appends the pair, and otherwise changes nothing and returns the check's error |
| MongoDbMemory.ChatMemory.Clear | backend/utils/MongoDBMemory.js:81-93 | the method empties the agent's list without creating a document |
| Guardrails.UnsafePatternsDistinct | backend/services/LangGraphAgentService.js:190-197 | the six forbidden patterns are distinct |
| Guardrails.MatchingSpec | backend/services/LangGraphAgentService.js:199-201 | the filter keeps every matching pattern and only those, in list order, each once |
| Guardrails.Sources | backend/services/LangGraphAgentService.js:201 | each pattern is recorded by its source text, in order |
| Guardrails.UnsafeViolations | backend/services/LangGraphAgentService.js:199-212 | the `filter` and `map` over the forbidden patterns; `UnsafeScan` states that the result is exactly the sources of the matching patterns, in pattern order |
| Guardrails.UnsafeScan | backend/services/LangGraphAgentService.js:199-212 | the violations are exactly the sources of the forbidden patterns the input matches, and they are empty exactly when none matches |
| Guardrails.FirstBoundary | backend/services/LangGraphAgentService.js:238-249 | the boundary loop yields an index within the list |
| Guardrails.FirstBoundarySpec | backend/services/LangGraphAgentService.js:238-249 | the loop stops at a matching rule with no matching rule before it, and runs out only when no rule matches |
| Guardrails.Validate | backend/services/LangGraphAgentService.js:184-309 | a pass has no violations and an empty message; a refusal has at least one violation and a non-empty message |
| Guardrails.ValidateNode | backend/services/LangGraphAgentService.js:184-309 | the node writes only the `validation` channel, and fails exactly when validation fails |
| Guardrails.UnsafeScanDecides | backend/services/LangGraphAgentService.js:199-212 | an input that matches a forbidden pattern is refused with the matched sources and the fixed message, whatever the model answers |
| Guardrails.BoundaryRuleDecides | backend/services/LangGraphAgentService.js:215-249 | an input that passes the scan is refused by the first boundary it matches, with that rule's source and message, whatever the model answers |
| Guardrails.CapabilityCheckDecides | backend/services/LangGraphAgentService.js:252-309 | with no pattern matched, the model's reply decides: a failed call fails, a reply starting with "invalid" in any case refuses, anything else passes |
| Guardrails.ValidateFailsOnlyOnModelFailure | backend/services/LangGraphAgentService.js:252-288 | validation fails exactly when no pattern matches and the capability call is rejected |
| Guardrails.RefusalHasMessage | backend/services/LangGraphAgentService.js:203-302 | every refusal carries one of the fixed non-empty messages |
| ProcessNode.ValidMessagesCount | backend/services/LangGraphAgentService.js:344-353 | the history filter gives one message per message with a content |
| ProcessNode.ValidMessagesSpec | backend/services/LangGraphAgentService.js:344-353 | the history filter keeps exactly the messages with a content, each once, in their order |
| ProcessNode.Chats | backend/services/LangGraphAgentService.js:356-369 | the history is sent as one chat message per kept message, in order |
| ProcessNode.Process | backend/services/LangGraphAgentService.js:313-417 | the process node's four branches; `ProcessShape`, `GuardBranch`, `RefusalBranch`, `ReplyBranch` and `ApologyBranch` state the messages appended, the last response, the count and the pair saved in each |
| ProcessNode.ProcessShape | backend/services/LangGraphAgentService.js:313-417 | every outcome appends one or two messages and sets the last response and a count of the old length plus what it added; it saves only a pair with a non-empty input |
| ProcessNode.GuardBranch | backend/services/LangGraphAgentService.js:321-330 | a blank input adds only the guard message, saves nothing and consults no model |
| ProcessNode.RefusalBranch | backend/services/LangGraphAgentService.js:332-338 | a refused input adds only the refusal text, saves nothing and consults no model |
| ProcessNode.ReplyBranch | backend/services/LangGraphAgentService.js:373-398 | a non-empty reply is appended after the trimmed input, becomes the last response, and is saved as that pair |
| ProcessNode.ApologyBranch | backend/services/LangGraphAgentService.js:376-416 | a failed call or an empty reply appends the input and the apology, and saves that pair |
| ProcessNode.Invoke | backend/services/LangGraphAgentService.js:420-424 | the validate-then-process graph fails exactly when the validate node fails |
| ProcessNode.TurnResponds | backend/services/LangGraphAgentService.js:463-477 | a completed turn always has a non-empty last response, extends the history, and saves only valid pairs |
| ProcessNode.TurnGuard | backend/services/LangGraphAgentService.js:321-330 | a turn on a blank input ends with the guard message alone |
| ProcessNode.TurnRefusal | backend/services/LangGraphAgentService.js:332-338 | a refused turn ends with the refusal text alone, with no human message |
| ProcessNode.TurnExchange | backend/services/LangGraphAgentService.js:373-416 | an accepted turn appends the trimmed input and the reply or the apology, and saves that pair |
| AgentService.Finish | backend/services/LangGraphAgentService.js:474-505 | after the graph, a run either returns the stored list, which the agent's document then holds, or fails with the "Failed to run agent: " prefix; other agents are untouched |
| AgentService.RunTurn | backend/services/LangGraphAgentService.js:436-506 | the same guarantees for a whole turn: load, invoke, persist |
| AgentService.GetAgentById | backend/services/LangGraphAgentService.js:45-55 | the agent is found exactly when it is stored; otherwise "Failed to get agent: Agent not found" |
| AgentService.CompletedTurnFailsOnlyWithoutDocument | backend/services/LangGraphAgentService.js:485-501 | after a completed graph, the run fails exactly when no chat document exists at the final write, with the null-document TypeError |
| AgentService.FinishOverDocument | backend/services/LangGraphAgentService.js:480-501 | over an existing document, the final write stores the whole turn, message by message |
| AgentService.FinishWithoutDocument | backend/services/LangGraphAgentService.js:485-501 | without a document, the final write succeeds only when the process node's save created one |
| AgentService.AppendWellFormed | backend/models/ChatHistory.js:3-11 | concatenating well-formed lists gives a well-formed list |
| AgentService.FinishAppends | backend/services/LangGraphAgentService.js:480-501 | when the turn extends the loaded history, the document gains exactly the new messages stored |
| AgentService.LoadsDocument | backend/services/LangGraphAgentService.js:456-457 | loading a well-formed document yields its records converted one by one |
| AgentService.RunOverDocument | backend/services/LangGraphAgentService.js:456-501 | over a well-formed document, a run is the finish of the graph's turn over the converted records |
| AgentService.FinishExtends | backend/services/LangGraphAgentService.js:480-501 | any turn that extends the loaded list succeeds, answers its last response, and appends exactly its new messages |
| AgentService.FinishSingle | backend/services/LangGraphAgentService.js:480-501 | a turn that adds one AI message appends that one record |
| AgentService.FinishPair | backend/services/LangGraphAgentService.js:480-501 | a turn that saved a pair ends with the pair once in the document: the final write replaces the list the memory save extended |
| AgentService.RunStoresTurn | backend/services/LangGraphAgentService.js:436-506 | a run over a well-formed document succeeds, answers the last response, and leaves the document well-formed and extended by the turn |
| AgentService.RunPersistsGuard | backend/services/LangGraphAgentService.js:321-330 | after a blank input the stored list gains exactly the guard message |
| AgentService.RunPersistsRefusal | backend/services/LangGraphAgentService.js:332-338 | after a refused input the stored list gains exactly the refusal text |
| AgentService.RunPersistsExchange | backend/services/LangGraphAgentService.js:373-416 | after an accepted input the stored list gains exactly the human input and the reply |
| AgentService.RunWithoutDocument | backend/services/LangGraphAgentService.js:456-501 | without a document, a turn that saved nothing (blank or refused input) fails with the null-document error and changes nothing, while one that saved a pair succeeds with exactly that pair stored |
| AgentService.AgentService.InitializeAgentGraph | backend/services/LangGraphAgentService.js:133-434 | the agent's graph is registered, a memory is created only when missing, and other entries are kept |
| AgentService.AgentService.RunAgent | backend/services/LangGraphAgentService.js:436-506 | a registered agent runs its turn; an unregistered stored agent is initialized and then runs, and only its own graph and memory are added; an unknown agent fails with the wrapped lookup error and nothing changes |
| AgentService.AgentService.RunGraph | backend/services/LangGraphAgentService.js:450-506 | the result and the new chat collection are those of `RunTurn` |
| AgentService.AgentService.Persist | backend/services/LangGraphAgentService.js:474-505 | the result and the new chat collection are those of `Finish` |
| AgentModels.AgentSchemaErrors | backend/models/Agent.js:3-23 | the schema reports nothing exactly when the trimmed name and instructions are both non-empty, names each blank path once, and names `name` first |
| AgentService.AgentValidationMessages | backend/models/Agent.js:3-13 | one blank path gives that path's message alone; both give the name's message, a comma, then the instructions' message |
| AgentService.AgentService.CreateAgent | backend/services/LangGraphAgentService.js:79-131 | an empty name or instructions gives "Name and instructions are required", blank ones after the schema's trim give Mongoose's "Agent validation failed" message for the blank paths, and either way nothing changes; otherwise the trimmed agent, with the default model when none is given, is stored with an empty history, and its memory and graph are registered while the other graphs and memories stay as they were |
| AgentService.AgentService.GetChatHistory | backend/services/LangGraphAgentService.js:57-64 | the method returns the stored list, or an empty one without a document |
| AgentService.AgentService.ClearChatHistory | backend/services/LangGraphAgentService.js:508-538 | the method succeeds with an empty list exactly when a chat document exists, fails otherwise with the null-document error, and empties only that list |
| AgentService.AgentService.DeleteAgent | backend/services/LangGraphAgentService.js:540-565 | the method fails exactly when the agent is not stored; otherwise it removes the agent, its document, its memory and its graph |
| SingleNodeChat.FromStored | backend/utils/ChatGraph.js:52-56 | a stored record converts to a human message exactly when its type is 'human', and to an AI message otherwise, keeping its content |
| SingleNodeChat.History | backend/utils/ChatGraph.js:49-59 | every record is converted, in order, none dropped |
| SingleNodeChat.Loaded | backend/utils/ChatGraph.js:49-59 | without a document the history is empty; with one it has one message per record |
| SingleNodeChat.Concat | backend/utils/ChatGraph.js:10-14 | the reducer keeps the old list as a prefix, followed by the new one |
| SingleNodeChat.ModelNode | backend/utils/ChatGraph.js:85-107 | the node fails exactly when the model call fails; otherwise it returns the history followed by the input and the reply |
| SingleNodeChat.LoadAfterSave | backend/utils/ChatGraph.js:61-78 | saving and reloading keeps length, order, content and the human/AI side, and gives back a list of human and AI messages unchanged |
| SingleNodeChat.SaveAfterLoad | backend/utils/ChatGraph.js:49-78 | records of the two schema types, loaded and saved, come back unchanged |
| SingleNodeChat.TurnRewritesHistory | backend/utils/ChatGraph.js:85-107 | after a turn, the document holds the old records, re-typed with side and content kept, then the input and the reply |
| SingleNodeChat.TurnAppendsPair | backend/utils/ChatGraph.js:85-107 | over well-typed records a turn appends exactly the pair, and the next load sees the old history plus the pair |
| SingleNodeChat.ChatGraph.constructor | backend/utils/ChatGraph.js:24-47 | a missing model name defaults to "gpt-3.5-turbo" |
| SingleNodeChat.ChatGraph.LoadHistory | backend/utils/ChatGraph.js:49-59 | the method returns the loaded history |
| SingleNodeChat.ChatGraph.SaveHistory | backend/utils/ChatGraph.js:61-78 | the method replaces the whole list with an upsert |
| SingleNodeChat.ChatGraph.ModelStep | backend/utils/ChatGraph.js:85-107 | the node's result is `ModelNode`'s; the document is rewritten only when the model replied |
| SingleNodeChat.ChatGraph.CallModel | backend/utils/ChatGraph.js:122-136 | the method answers the reply's content, or the model's error with nothing changed |
| SingleNodeChat.ChatGraph.ClearHistory | backend/utils/ChatGraph.js:138-148 | the method empties the list without creating a document |
| ActionRegistry.Find | backend/utils/actionRegistry.js:118-121 | the lookup finds an entry exactly when some entry has the key, and returns an entry with that key |
| ActionRegistry.CategoriesOf | backend/utils/actionRegistry.js:149-151 | one category per entry, in order |
| ActionRegistry.DedupSpec | backend/utils/actionRegistry.js:148-152 | the set-to-array result has no duplicates, holds exactly the categories seen, and is built up in first-appearance order |
| ActionRegistry.CollectCategories | backend/utils/actionRegistry.js:147-153 | the loop's result is the deduplicated list of categories: duplicate-free and holding exactly the entries' categories |
| ActionRegistry.GetActionCategories | backend/utils/actionRegistry.js:147-153 | the same for the registry itself |
| ActionRegistry.Summaries | backend/utils/actionRegistry.js:159-162 | one `{name, description}` per entry, in order |
| ActionRegistry.ByCategory | backend/utils/actionRegistry.js:156-163 | the `filter` and `map` over a list of entries; `ByCategorySpec` states that it lists exactly the entries of that category, in order, as name and description |
| ActionRegistry.GetActionsByCategory | backend/utils/actionRegistry.js:156-163 | `ByCategory` over the registry itself, so `ByCategorySpec` holds for it |
| ActionRegistry.ByCategorySpec | backend/utils/actionRegistry.js:156-163 | the result lists exactly the entries of that category, in registry order, each as its name and description |
| ActionRegistry.FirstMissing | backend/utils/actionRegistry.js:124-128 | gives none exactly when every required key is present; otherwise the first absent key |
| ActionRegistry.Parse | backend/utils/actionRegistry.js:131 | a parse passes exactly when a schema exists and the value conforms; a missing schema throws the TypeError |
| ActionRegistry.InputVerdictIn | backend/utils/actionRegistry.js:117-133 | the verdict of `validateActionInputs` over a list of entries; `InputVerdictSpec` states that an unknown action fails with "not found", a missing key with that key, and otherwise the parse decides |
| ActionRegistry.InputVerdict | backend/utils/actionRegistry.js:117-133 | `InputVerdictIn` over the registry; `InputVerdictSpec` and `NoSchemaNeverValidates` are stated about it |
| ActionRegistry.ValidateInputsIn | backend/utils/actionRegistry.js:117-133 | the loop's verdict is `InputVerdictIn` |
| ActionRegistry.ValidateActionInputs | backend/utils/actionRegistry.js:117-133 | the verdict over the registry is `InputVerdict` |
| ActionRegistry.InputVerdictSpec | backend/utils/actionRegistry.js:117-133 | an unknown action fails with "not found"; a missing key fails with that key; otherwise the schema parse decides |
| ActionRegistry.NoSchemaNeverValidates | backend/utils/actionRegistry.js:117-133 | an entry without an input schema never validates; with every key present it fails at the parse |
| ActionRegistry.PdfToTextNeverValidates | backend/utils/actionRegistry.js:20-26 | `pdf_to_text` is such an entry |
| ActionRegistry.ValidateActionOutputs | backend/utils/actionRegistry.js:136-144 | an unknown action is not found; a known one passes exactly when it has an output schema the value conforms to |
| PipelineRoutes.Dispatch | backend/routes/pipelineRoutes.js:161-189 | the `switch` has a case for exactly the five action names, and falls to `default` for any other |
| PipelineRoutes.RunStep | backend/routes/pipelineRoutes.js:160-195 | the inner `try` of one step; `RunStepSpec` states its meaning |
| PipelineRoutes.RunStepSpec | backend/routes/pipelineRoutes.js:160-195 | a step succeeds exactly when its action has a case in the `switch` and the helper gives a value, which is the step's output; an action without a case fails with "Unknown action: " and its name |
| PipelineRoutes.Execute | backend/routes/pipelineRoutes.js:150-234 | the `for` loop over the steps as a recursion; `RecordsNameSteps`, `RunThreadsOutputs`, `RunEnds`, `FailureStopsRun` and `RunSucceedsIff` state what its records, failure and final output are |
| PipelineRoutes.ResumesAdvance | backend/routes/pipelineRoutes.js:150-234 | one loop turn: a failing step ends the whole run with its failed record; a succeeding one moves the loop's invariant to the next step, with the output as the new input |
| PipelineRoutes.ResumesAtEnd | backend/routes/pipelineRoutes.js:150-234 | after the last step, the records written are all the records of the run |
| PipelineRoutes.RecordsNameSteps | backend/routes/pipelineRoutes.js:198-231 | there is one record per step attempted, in step order, each naming its step, pipeline and user |
| PipelineRoutes.RunThreadsOutputs | backend/routes/pipelineRoutes.js:209-211 | the first record's input is the run's input, every record but the last is completed, and each completed step's output is the next record's input |
| PipelineRoutes.RunEnds | backend/routes/pipelineRoutes.js:150-234 | without failure every step is recorded completed, and the final output is the last step's output (the initial one without steps); with a failure, the last record is failed, with a null output and that error |
| PipelineRoutes.FailureStopsRun | backend/routes/pipelineRoutes.js:212-233 | the first failing step is the last one recorded, and no later step runs |
| PipelineRoutes.RunSucceedsIff | backend/routes/pipelineRoutes.js:150-234 | a run completes without failure exactly when every step succeeds on its threaded input |
| PipelineRoutes.UserOf | backend/routes/pipelineRoutes.js:118 | the user is never empty: an absent user is 'default' |
| PipelineRoutes.SelectInput | backend/routes/pipelineRoutes.js:126-143 | a file wins when it has a path and fails without one; otherwise a truthy body input is used, and anything else fails with "No input provided" |
| PipelineRoutes.Route | backend/routes/pipelineRoutes.js:112-269 | the run route with every record accepted; `RouteNotFound`, `RouteRejectsInput`, `RouteFailsAtStep` and `RouteCompletes` state its answer and saved records in each case |
| PipelineRoutes.RouteNotFound | backend/routes/pipelineRoutes.js:118-122 | without a pipeline of this user the answer is 404 and no step runs |
| PipelineRoutes.RouteRejectsInput | backend/routes/pipelineRoutes.js:126-143 | without a usable input the answer is 400 with the selection's error, and nothing is saved |
| PipelineRoutes.RouteFailsAtStep | backend/routes/pipelineRoutes.js:212-261 | a step failing after successful ones answers 500 with its error; the saved records are the completed ones and then the failed one |
| PipelineRoutes.RouteCompletes | backend/routes/pipelineRoutes.js:236-253 | when every step succeeds the answer is 200, listing the step records and then the final record with the run's input and last output |
| PipelineRoutes.FailedRecordRejected | backend/models/Execution.js:21-24 | the failed record of the catch breaks the schema: its output is null |
| PipelineRoutes.CaughtRejected | backend/routes/pipelineRoutes.js:221-232 | as written, saving the failed record throws the validation error and nothing is stored |
| PipelineRoutes.ExecuteAsWritten | backend/routes/pipelineRoutes.js:150-234 | the loop with the schema check on every save; `ExecuteAsWrittenHidesFailure` states that a failing step ends the run with the schema's message and no failed record |
| PipelineRoutes.ExecuteAsWrittenHidesFailure | backend/routes/pipelineRoutes.js:212-233 | as written, a run that reaches a failing step stops with the schema's message, and stores no failed record |
| PipelineRoutes.RouteAsWritten | backend/routes/pipelineRoutes.js:112-269 | the run route as written; `RouteAsWrittenHidesStepError` and `RouteAsWrittenRejectsEmptyPipeline` state its 500 answers |
| PipelineRoutes.RouteAsWrittenHidesStepError | backend/routes/pipelineRoutes.js:212-261 | as written, every failing run answers 500 with "Execution validation failed: output: Path `output` is required." instead of the step's error |
| PipelineRoutes.SelectedIsTruthy | backend/routes/pipelineRoutes.js:126-143 | an accepted input is never null |
| PipelineRoutes.RouteAsWrittenRejectsEmptyPipeline | backend/routes/pipelineRoutes.js:236-247 | as written, a pipeline without steps answers 500, where the intended handler answers 200: its final record's output is null |
| PipelineRoutes.ExecutionLog.Save | backend/routes/pipelineRoutes.js:206 | a save appends the document |
| PipelineRoutes.PipelineRouter.RunSteps | backend/routes/pipelineRoutes.js:150-234 | the loop's trace is `Execute` of the steps, and the log gains exactly its records |
| PipelineRoutes.PipelineRouter.RunPipeline | backend/routes/pipelineRoutes.js:112-269 | the answer and the saved records are those of `Route` |
| Pipelines.NumberFrom | backend/services/PipelineService.js:13-16 | each step keeps its fields and its place, and its `order` is its position plus the offset |
| Pipelines.NumberSteps | backend/services/PipelineService.js:13-16 | every stored step's `order` is its index |
| Pipelines.Unnumbered | backend/services/PipelineService.js:13-16 | dropping `order` keeps the length and each step's fields |
| Pipelines.UnnumberedNumberFrom | backend/services/PipelineService.js:13-16 | numbering adds `order` and nothing else: dropping it gives back the caller's steps |
| Pipelines.Invoke | backend/services/PipelineService.js:49-72 | the chained graph run node by node; `InvokeFromReached`, `InvokeFailsAtStep` and `InvokeSucceedsIff` state its outcome |
| Pipelines.InvokeFromReached | backend/services/PipelineService.js:49-72 | a run that reached step k goes on as a run of the remaining steps from the state there |
| Pipelines.InvokeFailsAtStep | backend/services/PipelineService.js:50-56 | a failing node fails the run with "Step <action> failed: <message>" |
| Pipelines.InvokeSucceedsIff | backend/services/PipelineService.js:49-72 | the run succeeds exactly when every node does, and its result is the state after the last node |
| Pipelines.FirstUnreached | backend/services/PipelineService.js:49-72 | a run that did not reach step n has a last reached step before n, whose node failed |
| Pipelines.ReachedKeepsInput | backend/services/PipelineService.js:52-53 | every node receives the run's own input, since no node overwrites `input`; each earlier step's result is kept under its action name |
| Pipelines.Names | backend/services/PipelineService.js:49-58 | one node name per step, in step order |
| Pipelines.TargetsOfUnique | backend/services/PipelineService.js:61-68 | a node with one outgoing edge has that edge's target as its only successor |
| Pipelines.TargetsOfNone | backend/services/PipelineService.js:61-68 | a node with no outgoing edge has no successor |
| Pipelines.ChainIsSingle | backend/services/PipelineService.js:61-68 | over distinct names the chain has one more edge than steps: START leads to the first step, each step to the next, the last to END, and END to nothing |
| Pipelines.StateGraph.AddNode | backend/services/PipelineService.js:50 | a node is appended and the edges are kept |
| Pipelines.StateGraph.AddEdge | backend/services/PipelineService.js:63-68 | an edge is appended and the nodes are kept |
| Pipelines.AddNodes | backend/services/PipelineService.js:49-58 | the graph gains one node per step, in order |
| Pipelines.AddChain | backend/services/PipelineService.js:61-68 | the graph gains exactly the chain's edges, in order |
| Pipelines.Wire | backend/services/PipelineService.js:49-68 | without steps the last edge throws the TypeError and no edge is added; otherwise the graph gains the nodes and the whole chain |
| Pipelines.RunOutcome | backend/services/PipelineService.js:24-96 | the outcome of a run: a missing pipeline, no steps, or the graph's outcome; `RunOutcomeOfStored` states it for a stored pipeline, and `PipelineService.RunPipeline` returns it |
| Pipelines.Settled | backend/services/PipelineService.js:76-92 | the update that closes the run's record; `PipelineService.RunPipeline` states its status, output and error for either outcome |
| Pipelines.RunOutcomeOfStored | backend/services/PipelineService.js:38-72 | for a stored pipeline that has steps, the outcome is the first failing node's error, or the state holding the input and every step's result |
| Pipelines.RunAsWritten | backend/services/PipelineService.js:30-35 | the run with the schema check on its first record; `RunAsWrittenAlwaysRejected` states that it is always rejected |
| Pipelines.RunAsWrittenAlwaysRejected | backend/services/PipelineService.js:30-35 | as written, every run is rejected at its first write, because step and output are missing and 'running' is not an allowed status |
| Pipelines.ExecutionStore.Create | backend/services/PipelineService.js:30-35 | a create appends the record and returns its position |
| Pipelines.ExecutionStore.Update | backend/services/PipelineService.js:76-92 | an update replaces the record at that position, with no schema check |
| Pipelines.PipelineService.CreatePipeline | backend/services/PipelineService.js:7-22 | undefined steps fail with the wrapped TypeError and store nothing; otherwise the stored pipeline keeps the caller's fields and steps, numbered |
| Pipelines.PipelineService.RunPipeline | backend/services/PipelineService.js:24-96 | the result is `RunOutcome`, and exactly one record is added, whose status, output and error follow that outcome |
| Pipelines.PipelineService.DeletePipeline | backend/services/PipelineService.js:114-124 | only the owner's pipeline is removed and returned; otherwise "Failed to delete pipeline: Pipeline not found", with nothing changed |
| PipelineBuilder.HandleNext | frontend/src/pages/PipelineAgent.js:62-64 | one step forward, unclamped |
| PipelineBuilder.HandleBack | frontend/src/pages/PipelineAgent.js:66-68 | one step back, unclamped |
| PipelineBuilder.GuardsKeepStepInRange | frontend/src/pages/PipelineAgent.js:808-836 | from any wizard step, every sequence of clicks the button guards allow stays within the five steps |
| PipelineBuilder.BackUndoesForward | frontend/src/pages/PipelineAgent.js:808-836 | wherever both buttons are enabled, Back undoes Forward and Forward undoes Back |
| PipelineBuilder.AddAction | frontend/src/pages/PipelineAgent.js:81-90 | an unknown name leaves the selection unchanged; a known one appends it with empty inputs and its registry description |
| PipelineBuilder.Without | frontend/src/pages/PipelineAgent.js:93 | the filter removes exactly the element at the index, and keeps the list when the index is out of range |
| PipelineBuilder.RemoveAction | frontend/src/pages/PipelineAgent.js:92-94 | an in-range index removes one element and shifts the later ones down; any other index changes nothing |
| PipelineBuilder.RemoveUndoesAdd | frontend/src/pages/PipelineAgent.js:81-94 | removing the action just added restores the selection |
| PipelineBuilder.UpdateActionInputs | frontend/src/pages/PipelineAgent.js:96-103 | only the entry at the index changes, and only its inputs; the length is kept |
| PipelineBuilder.UpdateLastWins | frontend/src/pages/PipelineAgent.js:96-103 | updating an entry twice keeps only the second inputs |
| PipelineBuilder.SavedStepsFollowSelection | frontend/src/pages/PipelineAgent.js:114-117 | the saved steps follow the selection one for one, as name and inputs |
| PipelineBuilder.SavedPipelineRunsInOrder | backend/routes/pipelineRoutes.js:72-86 | once the create route has stored the saved steps, the run route's records name the selected actions in selection order, at most one per action, and at least one when the selection is not empty |
| PipelineBuilder.WithCustomCategory | frontend/src/pages/PipelineAgent.js:176-181 | 'custom' is always present afterwards, and is appended only when it was absent |
| PipelineBuilder.WithCustomCategoryIdempotent | frontend/src/pages/PipelineAgent.js:176-181 | adding the category again changes nothing, and never introduces a duplicate |
| PipelineBuilder.AddCustomAction | frontend/src/pages/PipelineAgent.js:156-181 | the registry gains the entry in category 'custom', the custom list gains its summary at the end, no category key other than 'custom' is added, and every other category is unchanged |
| PipelineBuilder.TwoCustomActions | frontend/src/pages/PipelineAgent.js:156-181 | two custom actions in a row leave 'custom' listed once, with both summaries in order |
| PipelineBuilder.HandleSaveCustomAction | frontend/src/pages/PipelineAgent.js:150-188 | a created action updates the catalog, closes the form and sets the success text; a failure sets the server's error or the fallback text, and keeps the catalog |

## Left out

- **The language model and the regular-expression engine** are oracles
  (`Model`, `Matcher`). The model's temperature, the API key, the prompt
  templates' exact whitespace and the message classes' internals are not
  modelled.
- **MongoDB, Mongoose and LangGraph are modelled only as far as the code
  relies on them.**
  - MongoDB collections are in-memory maps. Database errors other than a
    missing document are not modelled; `MemoryVariables` still takes a failed
    lookup as a case.
  - New ObjectIds are parameters. `AgentService.AgentService.CreateAgent` and
    `Pipelines.PipelineService.CreatePipeline` require a fresh id, which
    Mongoose guarantees.
  - Timestamps (`lastUpdated`, `completedAt`, `executionTime`,
    `createdAt`) and the console output are left out.
  - LangGraph is reduced to what the code relies on: node updates are
    applied channel by channel. In PipelineService.js, "START" and "END" are taken as
    the entry and exit names. Within the one run the graph's order is taken as
    step order, when the step names are distinct. Duplicate step names, which
    LangGraph rejects when the node is added, are not modelled.
  - ChatGraph's `MemorySaver` (its per-thread state store) does not affect the answer or the
    stored history, so it is left out.
- **Zod** is a conformance predicate. A failed parse is one `SchemaMismatch`
  error, without zod's list of issues.
- **Mongoose validation** is part of the model for two schemas. For the
  Agent schema, `AgentService.AgentService.CreateAgent` trims the fields
  and gives the `required` messages of the blank ones. For the Execution
  schema, only the Findings members check it. In both, the messages follow
  the required paths in schema order, then the enum, joined by a comma.
  The Tool schema is not checked (see the next line).
- Pipelines.PipelineService.CreatePipeline: the Tool schema
  (backend/models/Tool.js:3-43) is not applied to the stored document. The
  model stores every pipeline whose `steps` is defined, with the name as
  given and each step numbered. The schema itself would do three things.
  It trims the name (line 7). It drops each step's `order`, because no
  `order` path is declared (lines 19-36) and Mongoose's strict mode discards
  undeclared paths. It rejects a missing name or description, an action
  outside its enum (line 23), and a 'custom' step without `customActionId`.
- AgentService.AgentService.RunAgent: agent ids are exact strings, and
  every id is taken to be the canonical one that `_id.toString()` gives.
  `Agent.findById` also accepts other spellings of an ObjectId, such as
  upper-case hexadecimal. The graph is then registered under the canonical
  spelling (line 431), while the lookup at line 442 uses the spelling
  given, so `runAgent` re-enters without end (lines 442-447). Neither that
  loop nor the `CastError` for a malformed id is modelled. The same
  assumption is made for `GetAgentById`, `DeleteAgent` and the chat-history
  operations.
- ActionRegistry.InputVerdictIn, ActionRegistry.ValidateInputsIn,
  ActionRegistry.ValidateActionInputs and ActionRegistry.ValidateActionOutputs:
  an action name that is an `Object.prototype` key (such as "toString") is
  treated as unknown and fails with "Action toString not found". In the
  source, `actionRegistry[name]` finds the inherited member instead. The
  input check then throws "action.requiredInputs is not iterable", and the
  output check throws a TypeError for calling `parse` on undefined. Those
  messages are not modelled.
- **Modules and concurrency.** PipelineService.js loads ESM models through
  `require`; the model assumes the load works. Concurrency is left out, as is
  interleaving of the `async` calls (every operation runs to completion).
- **Uploads.** The multer upload and the `cleanupFile` of the upload are not
  modelled; `req.file` is reduced to its path.
- **Numbers.** JavaScript numbers are integers in `ActionRegistry.Value`.
  Helpers that return `undefined` are the `Outcome.NoOutput` case.
- **Operations outside the core:**
  - `getAgents`, and the earlier `clearChatHistory` of
    LangGraphAgentService.js:66-77, are not part of this model. The later
    definition at 508-538 replaces the earlier one on the class, and it is the
    one modelled.
  - `getPipelines` and `getPipelineExecutions` (PipelineService.js:98-112)
    are not part of this model; they only sort query results by creation time.
  - The page's `handleSavePipeline` HTTP call is not modelled. The steps it
    sends are `PipelineBuilder.SavedSteps`, and the create route
    (pipelineRoutes.js:72-86) is taken to store them as sent.
- PipelineBuilder.HandleSaveCustomAction: the model assumes the server's
  answer has `inputSchema.properties`. When that is missing,
  `Object.keys(newAction.inputSchema.properties)` throws a TypeError. That
  call sits in the updater passed to `setActionRegistry`
  (PipelineAgent.js:156-164), which React runs outside the handler's `try`.
  React may compute the new state early and drop an error thrown there. It
  then calls the updater again during the next render, and the TypeError is
  thrown there. So the `catch` at 185-187 never shows "Failed to create
  custom action"; the page's render fails instead. The model has no case for
  a failed render.
- PipelineBuilder.UpdateActionInputs: requires `index < |selected|`. In
  JavaScript a larger index extends the array with holes, which a `seq`
  cannot hold. A negative index is modelled: it leaves the list unchanged.
- PipelineBuilder.AddAction: registry keys are a `map`. An action name that is
  an `Object.prototype` key (such as "toString") is not modelled.
- PipelineRoutes.Route: records are "saved" without schema checks. The
  as-written members under Findings model the checks and their effect.

## Findings

| source | as written | input that shows it | evidently intended | confidence | as-written member | corrected member |
|---|---|---|---|---|---|---|
| backend/routes/pipelineRoutes.js:221-230 | a failing step is recorded with `output: null`. The Execution schema requires `output`, so `save()` throws the validation error, and the route answers 500 with "Execution validation failed: output: Path `output` is required." instead of the step's error. No failed record is stored. | a stored pipeline whose one step has the action "summarize_text", which the Tool schema's enum admits but the route's `switch` does not handle, run with the body input "text" | the failed step is recorded, and the answer is 500 with "Unknown action: summarize_text" | not executed | PipelineRoutes.RouteAsWrittenHidesStepError | PipelineRoutes.PipelineRouter.RunPipeline |
| backend/routes/pipelineRoutes.js:238-246 | a pipeline without steps makes a final record with `output: null`. Saving it throws, so the answer is 500. | a stored pipeline with `steps: []`, run with the body input "text" | the answer is 200, with the final record listed | not executed | PipelineRoutes.RouteAsWrittenRejectsEmptyPipeline | PipelineRoutes.Route |
| backend/services/PipelineService.js:30-35 | the run's first `Execution.create` has no `step`, has no `output`, and has status 'running', which the enum ['pending','completed','failed'] rejects. Every run therefore throws the validation error before it reads the pipeline. | any run, for example `runPipeline(id, "u", "text")` | the record is created, the graph runs, and the record is then settled as completed or failed | not executed | Pipelines.RunAsWrittenAlwaysRejected | Pipelines.PipelineService.RunPipeline |
