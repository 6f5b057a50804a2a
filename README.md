# Flow planning and execution engine — a Dafny model

This project models the flow engine in `core.py`. A *flow* is an ordered list of stored browser-automation *actions*. Each action belongs to a *block*, which is one website. The engine does four things:

- it runs a flow by dispatching one remote task per action to the Skyvern task runner and polling the task until it ends;
- it records an `ActionExecution` per action and stores the whole `FlowExecution` after every step;
- it checks which required inputs a flow still lacks;
- it builds flows from a planner's answers, reusing or creating blocks and actions.

Everything outside the engine is a stand-in:

- **Marqo store** (`MarqoDatabase`): four maps from fresh ids to documents (blocks, actions, flows, executions). A ghost log keeps the order in which execution documents were added.
- **Skyvern task runner** (`SkyvernService`): it records every posted task in order and numbers tasks in that order. It answers status requests from a given script of answers, each with a latency.
- **uuid4**: a counter of fresh ids (`Uuid`).
- **datetime.now**: a natural-number clock in seconds (`Clock`). Only request latency and the polling sleeps advance it.
- **LLM oracle and similarity search**: their answers are given data (`PlannerAnswers`, `Lookup`).

Modules:

- `Values`: ids, times, JSON values, `Option`, `Result`.
- `Environment`: the uuid4 and clock stand-ins.
- `Marqo`: the documents and the store.
- `Skyvern`: URL normalisation, the polling loop as a function with its timing laws, and the client class.
- `Inputs`: the set algebra of missing inputs.
- `Dedup`: the first-occurrence dedup of the optimised id list.
- `Blocks`: `WebsiteBlockManager`.
- `Planner`: the planner's deterministic phases as functions.
- `Flows`: `FlowExecution` and `WebsiteFlowManager`, that is executing, continuing, checking and creating flows.

The model follows what the code does where it departs from what it declares or names. The code defines a FAILED status and an `accumulated_outputs` dict that it reads but never fills, and it names a restart "continue":

- **Every action execution is recorded COMPLETED** once its task reaches any terminal status. This includes failed, terminated and canceled, as `RecordsAction` states. No execution is ever FAILED.
- **Outputs are never carried forward.** `accumulated_outputs` is never filled. Every task's payload and every recorded `inputs` is therefore the execution's initial inputs, or `{}`.
- **`continue_flow_execution` restarts the flow from its first action**, with only the additional inputs. It also leaves the stored flow's status at RUNNING.
- **A failing step ends the run.** After a missing action, a timeout or an unfinished task, no final document is stored. The stored documents are then the checkpoints of the completed steps only. The run does not reach a FAILED state with as many executions as actions.

## Model

Some definitions carry no contract of their own and appear here only through the members that use them. `Values.OrEmpty` is `initial_inputs or {}` (core.py:444). `Marqo.ExecutionDocOf` is the document store_execution writes, without the execution's id and outputs (core.py:124-138). `Marqo.ActionOf` is the document store_action writes, with both timestamps from the clock (core.py:77-94). `Skyvern.OutputOf` is `extracted_information` or `{}` (core.py:484). `Blocks.SuggestedAction` and `Blocks.SuggestedActions` are the actions create_block stores for its suggestions (core.py:336-350). `Flows.NewActionExecution` is a pending ActionExecution (core.py:368-378). `Flows.FlowExecution.ToDict` is FlowExecution.to_dict (core.py:408-418). `Planner.WithNewBlock` and `Planner.CapabilityAction` are what one entry of a planning phase stores (core.py:557-563 and core.py:599-611).

| member | source | states |
|---|---|---|
| Environment.Uuid.New | core.py:369 | each call returns an id never returned before, and the counter moves past it |
| Environment.Clock.Advance | core.py:321 | sleeping advances the clock by exactly the given seconds |
| Marqo.MarqoDatabase.StoreBlock | core.py:56-69 | a new block under a fresh id, typed website_based and stamped with the clock; nothing else changes |
| Marqo.MarqoDatabase.StoreAction | core.py:77-94 | a new action under a fresh id; the other indexes are unchanged |
| Marqo.MarqoDatabase.GetAction | core.py:96-107 | returns the stored action when there is one, and None otherwise (the exception path) |
| Marqo.MarqoDatabase.StoreFlow | core.py:109-122 | a new flow under a fresh id with its ordered action ids and no status field |
| Marqo.MarqoDatabase.GetFlow | core.py:450 | the flow document if it exists, and None otherwise |
| Marqo.MarqoDatabase.SetFlowStatus | core.py:435-438 | only the status of the named flow changes; a missing flow stays missing |
| Marqo.MarqoDatabase.StoreExecution | core.py:124-138 | every call adds a NEW document under a fresh id and appends that id to the log, so the executions index stays exactly the logged ids, each logged once; earlier documents are untouched |
| Marqo.LoggedAreNew | core.py:124-138 | ids a run appends to a log without repeats are distinct and none names a document that was stored before the run (AllNew) |
| Skyvern.NormalizeUrl | core.py:278-279 | the result always has a scheme; it equals the input exactly when the input starts with http:// or https://; otherwise it is the input with https:// prefixed, eight characters longer and ending in the input |
| Skyvern.NormalizeUrlIdempotent | core.py:278-279 | normalising twice is normalising once |
| Skyvern.PollFrom | core.py:307-321 | a wait makes at most one status request per scripted answer and never goes back in time; a finished wait returns the terminal answer of its last request; a wait whose answers ran out used all of them |
| Skyvern.PollStopsAtFirstTerminal | core.py:307-321 | the wait ends on the first terminal answer, returned as is, after only non-terminal ones; a wait whose answers ran out used all of them; time only moves forward |
| Skyvern.PollTimesOutOnlyLate | core.py:310-312 | a timeout happens only at a check where the elapsed time is strictly more than the limit |
| Skyvern.PollRequestsInTime | core.py:310-315 | with total elapsed seconds, every status request is made within the limit |
| Skyvern.PollAsWrittenIgnoresLongTimeouts | core.py:310 | as written, a limit of a day or more never times out |
| Skyvern.PollAsWrittenPollsPastDeadline | core.py:310 | as written, the default wait polls again 86410 seconds after its start; the corrected reading times out there |
| Skyvern.Terminals | core.py:314-318 | every listed answer is terminal, and there are no more of them than answers in the script |
| Skyvern.TerminalsAppend | core.py:314-318 | the terminal answers of two scripts one after the other are those of the first followed by those of the second, so the list keeps script order |
| Skyvern.TerminalsMembership | core.py:314-318 | a result is listed exactly when some answer of the script carries it with a terminal status |
| Skyvern.PollConsumesOneTerminal | core.py:314-318 | a wait consumes exactly one terminal answer when it finishes, and none otherwise |
| Skyvern.SkyvernService.CreateTask | core.py:275-296 | posts the task with the normalised url, the payload or {}, and the RESIDENTIAL proxy; the task id is its arrival number |
| Skyvern.SkyvernService.GetTaskStatus | core.py:298-305 | returns the next scripted answer after its latency |
| Skyvern.SkyvernService.WaitForCompletion | core.py:307-321 | the loop's outcome, the answers it consumed and the time it took are those of PollFrom (with total elapsed seconds) |
| Inputs.MissingInputsMembership | core.py:709-721 | an input is missing exactly when it is not provided and some action requires it |
| Inputs.MissingInputs | core.py:714-719 | no missing input was provided, and every missing input is required by some action |
| Inputs.MissingIsRequiredMinusProvided | core.py:714-719 | the union of the per-action differences is all required inputs minus the provided ones |
| Inputs.NothingProvided | core.py:709-721 | with no inputs, every required input is missing |
| Inputs.EverythingProvided | core.py:709-721 | providing at least every required input leaves nothing missing |
| Inputs.CheckThenRecheck | core.py:658-687 | the check, extract and recheck sequence succeeds exactly when every required input is provided or extracted |
| Inputs.MergeRemovesMissing | core.py:681-685 | merging the extracted inputs removes exactly those names from the missing set and adds none |
| Dedup.Dedup | core.py:649-650 | the deduplicated list is no longer than the input |
| Dedup.DedupSameElements | core.py:649-650 | the deduplicated list holds the same ids as the input |
| Dedup.DedupNoDuplicates | core.py:649-650 | each id is kept once |
| Dedup.DedupFirstOccurrenceOrder | core.py:649-650 | the kept ids are in the order of their first occurrence |
| Dedup.DedupOfDistinct | core.py:649-650 | a list without repeats is left unchanged |
| Dedup.DedupIdempotent | core.py:649-650 | deduplicating twice is deduplicating once |
| Blocks.WebsiteBlockManager.CreateBlock | core.py:329-359 | a new block, then one new action per suggestion, in order, with consecutive fresh ids; the record lists them; the actions index becomes the old one plus exactly SuggestedActions, so earlier actions stay and nothing else is added; the other indexes are unchanged |
| Blocks.SuggestedActionAt | core.py:336-350 | the k-th suggestion is stored under the k-th id after the block's, stamped with the block's id and url |
| Blocks.SuggestedActionsIds | core.py:336-350 | every action create_block adds lies strictly after the block's id and within one id per suggestion |
| Blocks.CreatedActions | core.py:329-359 | adding a block's suggested actions to a store whose ids all lie below the block keeps every old action, stores suggestion k under id k, and adds nothing else |
| Blocks.WebsiteBlockManager.GetAction | core.py:361-362 | the stored action, or None |
| Planner.ResolvePlan | core.py:544-564 | a successful resolve phase never moves the fresh-id counter back and contributes at most one id per plan entry |
| Planner.ResolvePlanContributions | core.py:544-564 | every plan entry contributes one id except those whose url has a block but whose search is empty; each id is a reused top hit or a fresh id |
| Planner.AddCapabilitiesFresh | core.py:596-623 | every missing capability adds exactly one new action id, fresh and increasing |
| Planner.AddCapabilities | core.py:596-623 | a successful sufficiency phase contributes exactly one id per missing capability and never moves the fresh-id counter back |
| Planner.PhaseFailsWithoutSuggestions | core.py:556-563 | either phase fails only at an entry whose url has no block and for which nothing was suggested (block["actions"][0] does not exist), and the error names that url |
| Planner.PhaseFailsAtUnsuggested | core.py:556-563 | conversely, either phase fails as soon as one entry has no block and no suggested action, and fails with the url of the first such entry, where block["actions"][0] raises |
| Planner.PlanPhases | core.py:544-623 | planning succeeds exactly when the resolve phase does and, unless the oracle judged the result sufficient, the sufficiency phase does too; the resolved ids come first; a sufficient plan is the resolved one |
| Planner.ResolveStores | core.py:544-564 | the blocks and actions after the resolve phase keep every entry below the starting id, and every new entry lies at or above it |
| Planner.AddStores | core.py:596-623 | the same for the sufficiency phase |
| Planner.PlanStores | core.py:544-623 | after both phases every old block and action is kept and every new action lies at or above the starting id |
| Planner.NewBlockFirstAction | core.py:557-563 | a created block with suggestions has its first action right after it, for the same url, which get_action(block["actions"][0]) finds |
| Planner.AddStoresHoldCapabilities | core.py:597-623 | every id the sufficiency phase returns names a stored action for its capability's url |
| Flows.RequestFor | core.py:278-287 | the posted task has a scheme, ends in the action's url, carries the given payload and asks for the RESIDENTIAL proxy |
| Flows.RanInOrderAppend | core.py:470-491 | one more execution, recorded COMPLETED from the next terminal answer, keeps the executions in flow order |
| Flows.DispatchedAppend | core.py:456-468 | posting the next action's task keeps the posted tasks equal to the flow's first actions with the initial inputs |
| Flows.CheckpointsAppend | core.py:490-491 | storing a new document after appending an execution keeps every earlier checkpoint and adds the one for the longer list |
| Flows.OutputsIndexedAppend | core.py:484-486 | indexing one more output under a new larger id keeps exactly one key per execution, mapped to its output |
| Flows.ProgressStep | core.py:456-493 | one completed action extends the executions, outputs, posted tasks and checkpoints in flow order |
| Flows.ProgressStall | core.py:463-477 | a task posted but not finished adds a post and nothing else |
| Flows.AfterRunAction | core.py:456-493 | one loop pass keeps the posted-task, consumed-answer and stored-document accounts and the execution invariant, classifies its error, and leaves the run's outcome to be the one FlowOutcome predicts |
| Flows.FlowOutcome | core.py:453-493 | how the loop ends against the remote's answers (the first unstored action, or the first task whose wait timed out or ran out of answers, else success); a run never consumes more answers than the remote gives |
| Flows.OutcomeStep | core.py:456-477 | one action that ran as RunAction describes either ends the run with the outcome FlowOutcome predicts or passes the rest of the answers to the next action |
| Flows.TerminalAnswersComplete | core.py:456-493 | when every answer of the remote is terminal, every action of a flow whose actions are all stored runs, each after exactly one status request |
| Flows.SlowFirstAnswerTimesOut | core.py:307-321 | a first answer that is not terminal and that, with the sleep after it, arrives later than the 3000 s limit makes the first task time out after that one request |
| Flows.AfterFinalStore | core.py:495-497 | the final store keeps every checkpoint and every earlier document |
| Flows.RequiredOf | core.py:716-717 | the k-th entry is the required inputs of the flow's k-th action |
| Flows.FlowMissingInputs | core.py:709-721 | for a flow, an input is missing exactly when it is not provided and one of the flow's actions requires it |
| Flows.MissingInputsStep | core.py:715-719 | visiting one more action adds its unprovided required inputs |
| Flows.FlowExecution.constructor | core.py:398-406 | a new execution has a fresh id, is PENDING and has no executions, timestamps or outputs |
| Flows.WebsiteFlowManager.RunAction | core.py:456-493 | one action: not found is an error with nothing changed; otherwise its task is posted; a timeout or a run-out script is an error naming the task, with no execution added; on a terminal answer a COMPLETED execution with a fresh id and the task's output is appended, indexed and checkpointed as a new document |
| Flows.WebsiteFlowManager.RunActions | core.py:453-493 | whether the loop fails, with which error and after how many answers, is FlowOutcome of the remote's answers; the executions record the flow's first actions in order, each with the initial inputs, the task posted for it and the k-th terminal answer; the logged ids are distinct and none was stored before (AllNew), and the k-th of these new documents is the checkpoint after k+1 executions; it stops at the first error |
| Flows.WebsiteFlowManager.RunFlow | core.py:453-500 | after the loop and the final store (FlowRan): every logged document is new and distinct (AllNew); the error and the answers consumed are FlowOutcome of the remote's answers; on success every action ran, the execution is COMPLETED and exactly one COMPLETED document follows the N checkpoints; on an error the run is still RUNNING, stopped at the action or task the error names, with only the earlier checkpoints |
| Flows.WebsiteFlowManager.Finish | core.py:495-497 | the execution is stamped COMPLETED and stored once more as a new document |
| Flows.WebsiteFlowManager.ExecuteFlow | core.py:443-500 | a missing flow is an error with nothing posted and no execution stored; otherwise success or the error is FlowOutcome of the remote's answers; on success there are N executions in flow order, N+1 distinct new documents, none stored before (AllNew: N checkpoints and the COMPLETED one), and the i-th task is the i-th action with the initial inputs; on an error, the executions before it and their checkpoints only |
| Flows.WebsiteFlowManager.ContinueFlowExecution | core.py:428-441 | a missing flow is an error with nothing changed; otherwise the flow is marked RUNNING and is re-run from its first action with only the additional inputs, storing only new, distinct documents (AllNew), and ending as FlowOutcome of the remote's answers says |
| Flows.WebsiteFlowManager.CheckMissingInputs | core.py:709-721 | a missing flow, or the first unstored action, is an error; otherwise the union over the flow's actions of required minus provided inputs |
| Flows.WebsiteFlowManager.ResolveActions | core.py:544-564 | the ids and the fresh-id use are those of ResolvePlan, including its failure on a new block without actions; the blocks and actions afterwards are ResolveStores of those before, so earlier actions are kept; flows and executions are unchanged |
| Flows.WebsiteFlowManager.CreateBlockFor | core.py:557-563 | create_block for an entry without a block, then its first action: the stores become WithNewBlock of the old ones, the counter moves past the block and its actions, and the first action id is returned when there is one |
| Flows.WebsiteFlowManager.AddMissingCapabilities | core.py:596-623 | the ids and the fresh-id use are those of AddCapabilities; the blocks and actions afterwards are AddStores of those before, so earlier actions are kept; flows and executions are unchanged |
| Flows.WebsiteFlowManager.SettleInputs | core.py:658-689 | the flow is returned exactly when all its actions are stored and every required input is provided or extracted; the caller's dict receives the merge when extraction ran; otherwise the still-missing names are the error |
| Flows.WebsiteFlowManager.CreateFlowFromPrompt | core.py:502-689 | a planning failure is an error with no flow stored; otherwise the flow with the deduplicated optimised ids is stored under the next fresh id and its inputs are settled as SettleInputs states; in both cases the blocks and actions are PlanStores of those before, and executions are unchanged |
| Flows.WebsiteFlowManager.CreateFlow | core.py:692-707 | the flow is stored under a fresh id and its record is returned unchanged |

## Left out

- The Marqo client (add_documents, search, get_document, update_documents, index creation). The store is four maps with fresh ids. Similarity search results are given as ranked hit lists (`Lookup`), so ranking is not modelled.
- The LLM client, all prompt text and JSON parsing of its answers (`LLMService`, including `analyze_website`). The oracle's answers are given values, and malformed JSON is not modelled.
- `generate_sql_query`, `createAppJsx` and `ReactWriter.write_app_jsx`: LLM calls and file writes only.
- app.py (HTTP routing), db.py (command-line tool) and the React front end: they are not part of this model.
- The first `FlowExecution` class (core.py:149-163): the class of core.py:395 redefines it.
- httpx errors, `raise_for_status` and async scheduling. Every request succeeds, and the model runs one flow at a time.
- Timestamps: `datetime.now().isoformat()` is a natural-number clock, and timestamp strings are not modelled.
- Ids: uuid4 is a counter. Skyvern task ids are the arrival number of the task.
- `found_actions` and the `acts` hint of create_block only feed the oracle's prompts, so they are not kept. `CreateFlowFromPrompt` returns the ids the two planning phases contributed as a ghost value.
- Skyvern.SkyvernService.WaitForCompletion: the remote's answers are a finite script. When the script runs out, the outcome is `Exhausted`, and the caller reports `TaskUnfinished`. This outcome exists only in the model.
- Skyvern.SkyvernService.WaitForCompletion: the loop tests the total elapsed seconds against the limit, the corrected reading of the Findings row, and not the `.seconds` component of core.py:312 that restarts every day. The as-written test is modelled by `PollFrom` with day wrap-around and is only used by the Findings lemmas.
- Flows.WebsiteFlowManager.RunAction: it waits through `WaitForCompletion`, so it too times out on total elapsed seconds and not as core.py:312 is written. The same holds for RunActions, RunFlow, ExecuteFlow and ContinueFlowExecution, which call it.
- Flows.WebsiteFlowManager.ExecuteFlow: a Python exception (missing flow, missing action, timeout) is an error value. The model returns the in-memory execution anyway, so that the contract can state what was stored before the error.
- Flows.WebsiteFlowManager.CheckMissingInputs: returns a set where the source returns `list(set)`, so the order of that list is not modelled.
- Flows.WebsiteFlowManager.SettleInputs: the second check cannot fail on a missing action after the first succeeded. In that impossible case the model returns the flow instead of raising.
- The contracts of the stateful WebsiteFlowManager methods use `old` and `fresh`. They are stated in full but rest on the heap model.

## Findings

| source | as written | input that shows it | evidently intended | confidence | as-written member | corrected member |
|---|---|---|---|---|---|---|
| core.py:310 | the deadline test reads `(now - start).seconds`, the seconds component of a timedelta, which restarts at 0 each day | one status request of 86400 s answering RUNNING, then COMPLETED, with the default 10 s interval and 3000 s limit: the code polls again at 86410 s and returns COMPLETED | compare the total elapsed seconds with the limit, so that the wait times out at 86410 s | not executed | Skyvern.PollAsWrittenPollsPastDeadline | Skyvern.PollRequestsInTime |
