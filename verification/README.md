# Runtime model

Dafny models of three parts of the system, with proofs about all their runs.

- **Turn execution** (Go runtime): the gateway's receive loop admits events, an execution lane serialises them per
  agent, the agent loop runs a budgeted turn, the scheduler runs each batch of tool calls, and the stream environment
  matches the adapter's replies to the calls that wait for them. The environment, the model and the memory store are
  arbitrary functions. Concurrency is a choice of the next step: a call in flight that ends, a ready branch of a
  select, a cancellation.
- **Context budget** (Go runtime): transcripts are cut into causal groups, memories are selected and put in order,
  definitions are filled item by item, sections are held to their limits, and the projection is degraded along a fixed
  chain until the rendered request fits. How large the rendered request is, and whether it renders, is an arbitrary
  function of the projection. Sections are costed with the real estimator on their JSON text.
- **Interaction reservations** (C# adapter): contexts by event id and the event in flight by world, npc and player.

Code that changes state is a method, on a class where the source has an object, proved against a specification; the
laws are lemmas about that specification, the modules named Laws those that say what it means case by case. Protocols with several threads are state machines whose atomic steps are
those of the source. The methods of a lane are proved to take steps of its machine, and those of the receive loop to
take moves of the machine of a connection; of the stream environment only the receive loop's side is an object, its
callers are steps of the machine alone.

| files | about |
|---|---|
| BatchProtocol, Scheduler, Batch, BatchLaws | the tool batch scheduler: what a log of submissions may be, the loops, the preflight checks, and what a report means |
| Loop, LoopLaws | one turn, and what its steps mean |
| Lane, AgentTarget, Gateway | the lane of an agent, which agent an event is for, one connection |
| StreamEnvironment, StreamLaws | calls to the adapter and its replies, and what a caller gets |
| Transcript, Memory, ProjectionBounds, DefinitionBudget | the parts of the context projection |
| Projection, SectionText, RequestBudget | the projection, its degradation chain, the JSON text of its sections, and all budget stages |
| Build | a whole build, from records and messages to the fitted projection |
| TokenEstimate, JsonText, TextLaws | the estimator, the JSON text it is applied to, and what sections look like |
| InteractionStore, InteractionLaws | the reservations, and what each operation changes |
| Common, Text, Json, Entities, Messages | values that several modules share |

Where the code does not do what one might expect:

- Context facts can exceed their section limit after the request stage, because the mark that replaces a text may be
  longer than the text. `FactsStayWithinLimit` says exactly for which facts that can happen, and
  `FactsCanOutgrowLimit` gives events and facts for which it does.
- A batch that repeats a tool-call id is refused by the scheduler and one with blank ids may run; either way the
  transcript with that batch is refused by the context engine in the next step. `AcceptedIffDistinct` says exactly which
  transcripts are accepted, and `BlankIdIsRunAndRefused` gives a batch that is run and then refused.
- A handoff for an event id that is held under another key is accepted and leaves the two dictionaries out of step.
  `HandoffKeepsInverse` gives the exact condition. The adapter mints a new event id for every interaction
  (adapters/stardew/src/Runtime/RuntimeClient.cs:123, adapters/stardew/src/Runtime/RuntimeClient.cs:189).
- A second answer for an observation whose caller has not taken the first blocks the receive loop. `AnswerHoldsLoop`
  says exactly when; `HeldLoopNeverGoesOn` and `LoopCanBeHeldForGood` say that it can be for good.
- A wait with an expired context leaves its action registered (runtime/internal/gateway/stream_environment.go:176-184).
  `OnlyExpiredWaitLeavesEntry` says that no other end of a wait does, `ExpiredWaitLeavesEntry` gives a run, and
  `EntryChanges` with `EntryStays` say for how long.

## Model

| member | source | states |
|---|---|---|
| Scheduler.ScheduleIndependence | runtime/internal/agent/scheduler.go:82-173 | Two runs of one plan against the same replies, with any two concurrency limits and any two completion orders, both end with a technical error or neither does; without one they give the same results, actions, failure and settle flags and submit the same calls. |
| Scheduler.RunPlan | runtime/internal/agent/scheduler.go:114-172 | Every run of a plan keeps the protocol of the log, waits for every call it launched, reports the successful actions of what it received also when it is cut short, returns the preferred error, and without an error gives exactly the outcome that plan and replies prescribe. |
| Scheduler.RunParallelGroup | runtime/internal/agent/scheduler.go:271-342 | For every completion order the group only submits calls in order below the limit, returns with nothing active, writes into each slot of the group the result received for its own call and nowhere else, and returns the preferred error. |
| Scheduler.ErrorIffReply | runtime/internal/agent/scheduler.go:307-341 | There is a technical error exactly when some submitted call of the plan was answered by one. |
| Scheduler.RanAsPrescribed | runtime/internal/agent/scheduler.go:114-172 | Without a technical error the calls submitted are those before the stopping point and all were answered. |
| Scheduler.BatchShape | runtime/internal/agent/scheduler.go:114-172 | The submitted calls end at a group boundary, every call of an earlier group succeeded, every later slot says a prior group failed, and each slot carries the id and the name of its own call. |
| Scheduler.ActionsAreSlots | runtime/internal/agent/scheduler.go:344-352 | The successful actions are the succeeded slots in call order, each with the policy of its call and the result the environment gave for it. |
| Scheduler.FailedIffSlot | runtime/internal/agent/scheduler.go:127-158 | The failure flag is set exactly when some slot did not succeed. |
| Scheduler.ActionsSucceeded | runtime/internal/agent/scheduler.go:344-352 | Every action reported as successful has a succeeded result, also when calls answered after the group was cancelled. |
| Scheduler.FillPriorGroupSkipped | runtime/internal/agent/scheduler.go:508-512 | After a failed group the slots are those the plan prescribes: results up to the stop, skipped beyond it. |
| Scheduler.SuccessfulActionsFromParallelGroup | runtime/internal/agent/scheduler.go:344-352 | The recorded actions come out in call order, whatever order they were recorded in. |
| Scheduler.CompletedActionsShouldSettle | runtime/internal/agent/scheduler.go:354-361 | True exactly when one of the actions has the settle policy. |
| BatchProtocol.RunIsBounded | runtime/internal/agent/scheduler.go:277-302 | At every step the calls received are among those launched, the number of the others is between 0 and the limit (1 if the limit is not positive), and no more calls are launched than planned. |
| BatchProtocol.LaunchAt | runtime/internal/agent/scheduler.go:299-336 | Calls are launched in plan order, only below the limit, only when every call of the earlier groups has been received as a success, and never after a technical error was received. |
| BatchProtocol.IdleRun | runtime/internal/agent/scheduler.go:310-341 | Nothing is active exactly when everything launched has been received. |
| BatchProtocol.RunIsAnswered | runtime/internal/agent/scheduler.go:310-330 | Without a technical error every outcome received is the environment's own reply for that call. |
| BatchProtocol.FirstErrorIsTrue | runtime/internal/agent/scheduler.go:314-318 | The first technical error received is a true reply of a launched call, not a consequence of the cancellation it causes. |
| BatchProtocol.PreferredNext | runtime/internal/agent/scheduler.go:553-561 | Folding the preference over the errors as they arrive yields the first that is not a cancellation, else the first. |
| BatchProtocol.ResultNamesItsCall | runtime/internal/agent/scheduler.go:450-499 | A call ends with a result that tells of the action in its reply (id, name, output, status and code, each literally), or with the error of its reply. |
| BatchProtocol.StopIsBoundary | runtime/internal/agent/scheduler.go:117-172 | The stopping point is a group boundary after the first call that does not succeed. |
| BatchProtocol.GroupEnds | runtime/internal/agent/scheduler.go:117-122 | Within a group of the plan, start and end computed from any call are those of the group. |
| Batch.DuplicateToolCallIDs | runtime/internal/agent/scheduler.go:534-551 | The set holds exactly the non-blank trimmed ids that occur more than once. |
| Batch.TwinIsOther | runtime/internal/agent/scheduler.go:534-551 | A call is a duplicate exactly when its trimmed id is not blank and another call of the batch has the same. |
| Batch.Preflight | runtime/internal/agent/scheduler.go:175-265 | All or nothing: if any call fails a check the batch is refused with each faulty call naming the first check it fails and every other call skipped; otherwise every call is planned, in order. |
| Batch.Run | runtime/internal/agent/scheduler.go:82-173 | A batch is refused, or a single asynchronous call is started alone, or the plan is run; the outcome is that of the case. |
| Batch.RunAsyncOne | runtime/internal/agent/scheduler.go:394-499 | A result that comes with the start ends the call, whatever a wait would answer; otherwise the wait does. There is a technical error exactly when the start or the wait has one, brings nothing, or the action has not ended; else the one slot has id, name, output and status of call and action, the batch failed iff the action did not succeed, settles iff it did and the policy says so, and a rejection at the start without a code has its own code. |
| Batch.BatchResults | runtime/internal/agent/scheduler.go:82-173 | At most the calls of the batch are submitted; without an error there is one slot per call with its id; a refused batch submits nothing, has only invalid and skipped slots and at least one invalid one. |
| Batch.StartsWithinLimit | runtime/internal/agent/scheduler.go:224-235 | An asynchronous call is never started once the limit of the turn is reached, and an outcome says so exactly when one was started. |
| BatchLaws.BatchTells | runtime/internal/agent/scheduler.go:82-173 | For every batch that ran without a technical error: the slot of each submitted call tells of the action in its own reply, with its output, how it ended and why, literally; every other slot says that a prior group failed; submission stops only after a failure and only between calls that may not run beside each other; flags and actions are those of the slots. |
| BatchLaws.SlotsTell | runtime/internal/agent/scheduler.go:450-512 | Each submitted slot has the id and name of its call, the output of its action, the status that goes with how the action ended, and the code of success, the reason given, or the default for that ending. |
| BatchLaws.SubmittedCalls | runtime/internal/agent/scheduler.go:114-172 | The submitted calls are all calls, or end with a failure between two calls that may not run beside each other; a call next to which nothing else may run was only followed after its success. |
| BatchLaws.OutcomeSums | runtime/internal/agent/scheduler.go:123-172 | The batch failed iff some slot did not succeed, settles iff a successful action has that policy, and its actions are those of the succeeded slots in order. |
| BatchLaws.ErrorsTell | runtime/internal/agent/scheduler.go:307-341 | There is a technical error exactly when some submitted call has no result; the first error received is that of a true reply, and the one returned is the first that is no cancellation. |
| BatchLaws.ReportedActions | runtime/internal/agent/scheduler.go:114-172 | Whether or not it ended in an error, a batch reports exactly the actions of the calls that were answered with a success, in call order, each with its call, policy and result. |
| BatchLaws.LaunchTells | runtime/internal/agent/scheduler.go:271-336 | A call is submitted below the limit, and after every call before it from which a sequential tool separates it, itself included, has succeeded. |
| BatchLaws.ReceiveTells | runtime/internal/agent/scheduler.go:299-336 | Before a technical error the group waits for a call only when the limit is used up or the next call may not run beside the last one. |
| BatchLaws.FaultTells | runtime/internal/agent/scheduler.go:175-265 | A call is faulty exactly when it fails one of eight checks, and the code is that of the first in their order. |
| BatchLaws.RefusalTells | runtime/internal/agent/scheduler.go:82-93 | A batch with a faulty call submits nothing; each faulty call names its first failed check, each other one is skipped. |
| BatchLaws.PlanTells | runtime/internal/agent/scheduler.go:94-118 | A batch without faults plans every call with its tool; it is started asynchronously exactly when its only call has an asynchronous tool. |
| Loop.Turn.HandleEvent | runtime/internal/agent/loop.go:158-230 | A valid turn whose first observation succeeds takes its steps one after the other from empty books, each related to the next as a step prescribes; only the last may end the turn, with the error that is returned, and MaxStepsExceeded is returned exactly when all steps went on. Without that observation no model is called. The turn sends exactly one completion, COMPLETED iff no error is returned. Every batch it ran is what the scheduler reports for those calls at that step; over all of them each id is submitted at most once, the asynchronous actions started are counted and within their limit, and the record holds exactly their successful actions. A failed observation is recorded exactly when a batch was run before. Model calls and tool calls are within their limits. If the model gives the calls of every batch ids of their own, the context never fails because of the transcript. An invalid turn fails with the reason, calls no model, runs no batch and leaves everything as it was. |
| Loop.Turn.RunBoundedSteps | runtime/internal/agent/loop.go:232-508 | The history of the steps: each goes on to the next, the last ends the turn with the returned error, or all of them went on and the error is MaxStepsExceeded; the model was called once a step, unless the last could not build its request. The turn then has one completion and a record of exactly the successful actions of the batches that the scheduler ran, or none; the rounds of the transcript are the batches accepted for processing, except that the last one may have ended the turn without results. |
| Loop.StepParses | runtime/internal/agent/loop.go:250-266 | With a model that gives the calls of every batch ids of their own, a step that ends with a failed context had a transcript that parses and a request that could not be built. |
| Loop.BlankIdIsRunAndRefused | runtime/internal/agent/loop.go:369-434 | A batch with one blank id passes preflight for every toolbox that knows its tool, and the transcript with it is refused whatever its result is. |
| Loop.Turn.RunStep | runtime/internal/agent/loop.go:250-494 | A step without an acceptable decision fails with the reason; one without calls settles; a batch that reuses an id is answered with invalid and skipped results and not run; any other batch is run by the scheduler, with its report entered for this step, and ends, continues or settles the turn as that outcome says. The turn stays open with all its invariants or is closed with one completion. |
| Loop.Turn.AfterBatch | runtime/internal/agent/loop.go:460-494 | A step settles the turn exactly when its batch ran without error or failure, was not asynchronous, and the model or an action asks for it. |
| Loop.Turn.Accept | runtime/internal/agent/loop.go:314-364 | A batch is accepted only within the limits per step and per turn; what is accepted is counted. |
| Loop.Turn.ValidateToolCallIDsAcrossSteps | runtime/internal/agent/loop.go:747-775 | The batch is refused exactly when it reuses an id of an earlier step; the reused ids are invalid and the other calls skipped. |
| Loop.Turn.RememberToolCallIDs | runtime/internal/agent/loop.go:777-785 | Afterwards the ids remembered are those before and the non-blank trimmed ids of the batch. |
| Loop.Turn.UpdateMemory | runtime/internal/agent/loop.go:945-1011 | The record holds exactly the succeeded actions, in order, and the facts of the event only for a settled turn; nothing is recorded when there is nothing to record or a step of recording fails. |
| Loop.Turn.Decide | runtime/internal/agent/loop.go:250-301 | There is a decision exactly when the transcript parses and the request builds, the model answers and the control is specified; otherwise the first of these that fails is the error, and without a request the model is not called. The transcript parses if and only if every batch answered so far has present, distinct ids. |
| Loop.Turn.RunBatch | runtime/internal/agent/loop.go:403-494 | One batch is added to those that ran: these calls at this step, with asynchronous actions refused exactly when their limit is used up, and what the scheduler reports for them; its results are the next round. A technical error or a failed observation ends the turn, and only a batch without failure that was not asynchronous may settle it. |
| Loop.Turn.RecordBatch | runtime/internal/agent/loop.go:411-435 | A report of the scheduler joins the batches of the turn whether or not it ended in an error; with it each id is still submitted at most once in the turn, the starts of asynchronous actions are counted within their limit, and the successful actions are those of all batches in order. |
| Loop.SubmitOnce | runtime/internal/agent/loop.go:366-403 | A batch that reuses no id of an earlier step and passes preflight submits each non-blank trimmed id at most once in the whole turn. |
| Loop.AdmissibleIds | runtime/internal/agent/loop.go:366-434 | A batch that passes preflight holds no id twice. |
| Loop.AcceptedIffDistinct | runtime/internal/agent/loop.go:369-434 | A transcript built by the loop parses into causal groups if and only if within every batch the ids are present and distinct. |
| Loop.RoundIsGroup | runtime/internal/agent/loop.go:369-434 | A batch and its results form a causal group exactly when the ids of the batch are present and distinct. |
| Loop.BatchFitsTurn | runtime/internal/agent/loop.go:403-435 | Whatever the scheduler returns keeps the ids once per turn, respects the asynchronous limit and pairs every call with its result. |
| LoopLaws.StepFails | runtime/internal/agent/loop.go:250-364 | A step fails with ContextFailed, ProviderFailed, InvalidModelResponse or one of the two call limits under exactly these literal conditions, in this precedence, and then has no other effect. |
| LoopLaws.RepeatedStep | runtime/internal/agent/loop.go:366-408 | A batch that reuses an id seen before is not run; the calls that do are invalid and the others skipped, and the turn goes on. |
| LoopLaws.BatchStep | runtime/internal/agent/loop.go:409-494 | Any other batch is run, with asynchronous actions refused once the turn started as many as it may; how it ended decides whether the turn fails, settles or goes on. |
| LoopLaws.SettlingStep | runtime/internal/agent/loop.go:314-331 | A decision to settle without calls ends the turn without error and does nothing else. |
| LoopLaws.StepRemembers | runtime/internal/agent/loop.go:365-368 | Afterwards exactly the ids seen before and the non-blank trimmed ids of the batch are remembered, also when the batch was not run. |
| LoopLaws.MemoryTells | runtime/internal/agent/loop.go:945-1011 | There is one record exactly when memory is on, the turn settled or ended with or after a batch, there is something to record, and recording succeeds; it has the facts only when the turn settled. |
| LoopLaws.TranscriptTells | runtime/internal/agent/loop.go:369-434 | The transcript alternates the calls of the model and the results for them, in order. |
| RequestBudget.Draft.EnforceGlobalRequestBudget | runtime/internal/context/context.go:440-493 | The loop terminates at the first candidate of the degradation chain that fits or does not render; it reports the budget as exceeded only with nothing left but required content; retained plus dropped counts and required content are unchanged, and exactly the changed sections are marked. |
| RequestBudget.Draft.ApplyProjectionBudgets | runtime/internal/context/context.go:349-394 | The section and definition stages leave the prescribed projection or the first error in order of precedence; then the request is fitted; required content is unchanged throughout and the crop marks are exact. |
| RequestBudget.Draft.ApplySectionBudgets | runtime/internal/context/context.go:349-391 | The definitions, event, observation and facts end as prescribed by their limits, with the error that has precedence. |
| RequestBudget.Draft.EnforceRequiredSectionBudgets | runtime/internal/context/context.go:396-438 | Each section that is still over its limit is reduced to what is required; the error is that of the first section over even so. |
| RequestBudget.FirstFit | runtime/internal/context/context.go:440-493 | The settled projection is a candidate before which every fuller candidate was rendered and too large; there is no error iff it fits; a budget error means the last candidate was reached. |
| RequestBudget.SettledIsInOrder | runtime/internal/context/context.go:457-481 | Whatever the loop settles on cut the agent definition only after the game definition, that only after the observation, that only after the event payload, that only after the facts, those only after all memories, and these only after all groups but the newest. |
| Projection.CandidatesAreInOrder | runtime/internal/context/context.go:457-481 | No candidate of the chain cuts anything out of this order. |
| RequestBudget.LimitedEventTells | runtime/internal/context/context.go:366-374 | An event over its limit has its payload replaced by the mark or, where even that is over the limit, dropped. |
| RequestBudget.LimitedObservationTells | runtime/internal/context/context.go:375-380 | An observation over its limit loses entities and extensions, and its state is replaced by the mark or dropped. |
| RequestBudget.LimitedFactsTell | runtime/internal/context/context.go:535-548 | Facts over their limit keep identities and labels, a mark for a text, and no attributes. |
| RequestBudget.EarlyErrorTells | runtime/internal/context/context.go:349-438 | The error before the request is sized is that of the first section that is over its limit when cut: event, observation, facts, then definitions. |
| RequestBudget.BuiltFits | runtime/internal/context/context.go:259-310 | A request that is built is within the system, user and total limits, and the JSON texts of its event, observation and definitions are within theirs. |
| Build.Build | runtime/internal/context/context.go:259-310 | A build is refused exactly for a transcript that is no sequence of causal groups or whose newest group is over its limit. Otherwise the longest run of newest memories and of newest groups within their limits go through the shared budgets; what is left is the newest of both, still within their limits and with the newest group, and contains all that the input requires; every selected memory and every message is in the projection or counted as dropped, and exactly the oldest are dropped. No memory is later than the event or, when that has no time, than the observation. The reasons name dropped memories, dropped messages, cropped sections and missing definitions, each exactly when there are any. |
| Build.ProjectCurrentTurnTranscript | runtime/internal/context/transcript_projection.go:10-38 | The transcript that is kept is the longest run of newest groups within the limit, with the newest group; a refused transcript has the first fault, and is counted as dropped only if it was over the limit. |
| Build.WithinBudgets | runtime/internal/context/context.go:296-310 | The shared budgets settle the projection as prescribed and keep the sums of retained and dropped; the required context is reported as over budget exactly when there is an error other than a failed rendering. |
| Build.FirstReasons | runtime/internal/context/context.go:312-331 | The reasons name a fallback definition, dropped memories and dropped messages, each exactly when there is one. |
| Build.TrimmedKeepsRequired | runtime/internal/context/context.go:259-310 | Whatever is trimmed from memories and transcript, the required content is that of the whole input. |
| Projection.CandidatesKeepNewest | runtime/internal/context/context.go:511-533 | Every candidate of the degradation chain keeps the newest memories and the newest groups, all of them whole. |
| RequestBudget.StagesKeepRequired | runtime/internal/context/context.go:349-394 | The definition and section stages leave the required content as it was. |
| RequestBudget.SectionErrorIs | runtime/internal/context/context.go:396-438 | A section is in error exactly when the JSON text of its required content alone is over its limit; the facts are when neither they nor their shells fit. |
| RequestBudget.DefinitionsFit | runtime/internal/context/context.go:598-628 | Definitions that are not in error are within their limit. |
| RequestBudget.FactsStayWithinLimit | runtime/internal/context/context.go:535-548 | Facts within their limit stay within it for every renderer and every request limit if and only if they would fit with every detail dropped; otherwise some request makes them exceed it. |
| RequestBudget.FactsCanOutgrowLimit | runtime/internal/context/context.go:535-548 | For every event with a payload and facts that are texts of one or two characters there are limits that the facts keep, under which a request that fits only without the payload is built without an error and its facts are over their limit. |
| SectionText.MarkMayCostMore | runtime/internal/context/context.go:535-548 | The quoted mark that replaces a fact text costs more tokens than any quoted text that is escaped to at most two characters. |
| SectionText.ShellsCostMore | runtime/internal/context/context.go:535-548 | Dropping the details of facts that are such texts makes the JSON text of their section dearer. |
| SectionText.OneLetterIsShort | runtime/internal/context/context.go:535-548 | A fact with the text of a single letter is such a fact. |
| SectionText.BareTextsCostLeast | runtime/internal/context/context.go:550-566 | An event or observation without its details never costs more tokens than with any details, on its JSON text. |
| RequestBudget.CutLightens | runtime/internal/context/context.go:457-481 | Every cut that does something brings the loop one step closer to its end. |
| RequestBudget.CutShows | runtime/internal/context/context.go:457-481 | A cut changes its own section and no other, and a section once cut never returns to what it was. |
| RequestBudget.Draft.DropOldestTranscriptGroup | runtime/internal/context/context.go:519-533 | Drops exactly the oldest causal group and moves its messages from retained to dropped. |
| RequestBudget.Draft.DropContextFactOptionalFields | runtime/internal/context/context.go:535-548 | Every fact loses its text and attributes; the flag is set exactly when some fact changed. |
| Projection.DegradeFollowsChain | runtime/internal/context/context.go:452-491 | One round of the loop moves to the next different candidate of the chain and skips none; with none left the projection is what is required. |
| Projection.RequiredIs | runtime/internal/context/context.go:511-584 | What no cut removes: envelope, newest causal group, fact identities and labels, event and observation identities, minimal definitions. |
| Projection.GroupCandidates | runtime/internal/context/context.go:519-533 | The first candidates keep all memories and an ever shorter suffix of the causal groups. |
| Projection.MemoryCandidates | runtime/internal/context/context.go:511-517 | The next candidates keep the newest group and an ever shorter suffix of the memories. |
| DefinitionBudget.ApplyDefinitionBudget | runtime/internal/context/context.go:598-628 | Definitions end minimal with an error iff the minimum is over the limit; otherwise the agent is refilled beside the minimal game and then the game beside that agent, within the limit, with exact crop flags. |
| DefinitionBudget.RefilledIsLongest | runtime/internal/context/context.go:651-787 | A prefix of the prioritised items fits exactly when it is no longer than the one that is kept. |
| DefinitionBudget.FullFitIsUnchanged | runtime/internal/context/context.go:651-787 | A definition that fits in full is kept in full. |
| DefinitionBudget.RefilledKeepsRequired | runtime/internal/context/context.go:630-649 | Refilling keeps the required fields. |
| DefinitionBudget.FillWithinBudget | runtime/internal/context/context.go:651-727 | Filling item by item until the first that does not fit leaves the longest fitting prefix of the items. |
| DefinitionBudget.AppendItems | runtime/internal/context/context.go:729-761 | Adding the texts of a section either adds all of them or stops at the longest fitting prefix. |
| DefinitionBudget.PrefixesGrow | runtime/internal/context/context.go:789-798 | A longer prefix of a definition never renders to fewer tokens. |
| TextLaws.PrefixTells | runtime/internal/context/context.go:651-727 | What is kept of a definition has all required fields and exactly the first of its texts, in order; the minimal one has no texts. |
| TextLaws.AgentTexts | runtime/internal/context/context.go:651-687 | The texts of an agent definition are refilled in the order identity, personality, speech style, preferences, guidelines, source version. |
| TextLaws.GameTexts | runtime/internal/context/context.go:689-727 | The texts of a game definition are refilled in the order title, summary, world rules, lore, constraints, source version. |
| TextLaws.DefinitionCosts | runtime/internal/context/context.go:598-615 | Both definitions are paid for, and four runes of their fields and texts cost a token at least. |
| TextLaws.AgentTextIs | runtime/internal/definition/definition.go:23-33 | The JSON text of an agent definition has every required member and every other that is not empty, under these names. |
| TextLaws.GameTextIs | runtime/internal/definition/definition.go:12-21 | The same for a game definition. |
| Transcript.TranscriptCausalGroups | runtime/internal/context/transcript_projection.go:44-70 | The loop computes the grouping of the transcript, or the error of the first message that has no group. |
| Transcript.ToolResultsMatchCalls | runtime/internal/context/transcript_projection.go:72-102 | True exactly when the ids of calls and results are present, distinct and the same set. |
| Transcript.GroupingOfFlatten | runtime/internal/context/transcript_projection.go:131-144 | Grouping undoes flattening: a flattened list of groups is read as the same groups. |
| Transcript.Grouping | runtime/internal/context/transcript_projection.go:44-70 | Flattening undoes grouping, and every group is a plain message or a call message with the results that answer it. |
| Transcript.AcceptedIffGroups | runtime/internal/context/transcript_projection.go:44-70 | A transcript is accepted exactly when it can be cut into causal groups at all. |
| Transcript.GroupTells | runtime/internal/context/transcript_projection.go:44-103 | A group is a message without calls and results, or one with calls, each with a present id of its own, and one without calls that has one result for each of these ids; white space around ids does not count. |
| Transcript.GroupingOfSuffix | runtime/internal/context/transcript_projection.go:104-144 | Dropping groups from the front leaves a transcript that is read as the remaining groups. |
| Transcript.TrimTranscriptGroups | runtime/internal/context/transcript_projection.go:104-129 | Keeps the longest suffix of groups whose cost fits, fails iff the newest group alone does not, and retained plus dropped is the number of messages. |
| Memory.SelectTimelineMemories | runtime/internal/context/memory_projection.go:50-61 | The result is the past records with every same-instant run put in sequence order. |
| Memory.PastIsExactly | runtime/internal/context/memory_projection.go:50-61 | A record is dropped exactly when it is later than now; the others keep their order. |
| Memory.ComparisonIsLexicographic | runtime/internal/context/memory_projection.go:240-257 | The comparison is the lexicographic order of year, season, day, hour, minute and tick. |
| Memory.StabilizeEqualGameTimeSequences | runtime/internal/context/memory_projection.go:63-82 | The array ends as the stabilised sequence of what it held, in place. |
| Memory.StabilizedPermutes | runtime/internal/context/memory_projection.go:63-82 | Stabilising permutes the records. |
| Memory.RunIsSorted | runtime/internal/context/memory_projection.go:63-82 | Within every maximal same-instant run the records end sorted by sequence, stably. |
| Memory.OthersStay | runtime/internal/context/memory_projection.go:63-86 | A record without a comparable time and sequence stays where it was. |
| Memory.StabilizedKeepsInstants | runtime/internal/context/memory_projection.go:63-82 | Every position keeps its game instant. |
| Memory.StabilizedTwice | runtime/internal/context/memory_projection.go:63-82 | Stabilising twice is stabilising once. |
| Memory.TimelineTells | runtime/internal/context/memory_projection.go:63-86 | Neighbours of one game time with event sequences end in the order of their sequences; every place keeps its game time, and a record without time or sequence its place. |
| TextLaws.MemoryTextIs | runtime/internal/context/context.go:230-234 | The JSON text of a memory has exactly its members that are not empty, under their names. |
| TextLaws.MemoriesCost | runtime/internal/context/memory_projection.go:88-128 | Four runes of ids, relations and summaries cost the section a token at least. |
| Memory.SortIsStable | runtime/internal/context/memory_projection.go:78-80 | Records with the same sequence keep their order. |
| Memory.SortSliceStable | runtime/internal/context/memory_projection.go:78-80 | A stretch of the array is sorted stably in place and the rest is untouched. |
| Memory.TrimMemoryProjections | runtime/internal/context/memory_projection.go:88-108 | Keeps the longest suffix of the projections whose rendered section fits, none if the newest alone does not. |
| Memory.ProjectRecentMemories | runtime/internal/context/memory_projection.go:12-27 | Retained plus dropped is the number of selected records, and what is retained is the longest suffix of the timeline that fits the section limit. |
| ProjectionBounds.ProjectBoundedMap | runtime/internal/context/projection_bounds.go:42-57 | The map is absent or within the token limit and all bounds; a non-empty map already inside all bounds comes back unchanged, and any other comes back as what is shown of it, or the mark where that is over the token limit, or nothing where even the mark is. |
| ProjectionBounds.ProjectOutputValue | runtime/internal/context/projection_bounds.go:68-95 | The recursive projection with its loops computes the specified projection. |
| ProjectionBounds.ProjectOutputMap | runtime/internal/context/projection_bounds.go:97-117 | The loop over the sorted keys keeps exactly the keys of lowest rank. |
| ProjectionBounds.ProjectOutputArray | runtime/internal/context/projection_bounds.go:119-133 | The loop keeps the first items and marks the cut. |
| ProjectionBounds.NestingIsBounded | runtime/internal/context/projection_bounds.go:68-95 | The projection of a value nests no deeper than the limit. |
| ProjectionBounds.WidthIsBounded | runtime/internal/context/projection_bounds.go:97-133 | Every map has at most maxFields + 1 entries and every array at most maxArrayItems + 1 items. |
| ProjectionBounds.InsideBoundsIsUnchanged | runtime/internal/context/projection_bounds.go:68-133 | A plain value inside all bounds is its own projection. |
| ProjectionBounds.ProjectionShows | runtime/internal/context/projection_bounds.go:68-133 | What is shown of a value, clause by clause: a mark for what is nested too deep, the fields with the first keys and the number of the others, the first items and the number of the others, text for what has no JSON form. |
| ProjectionBounds.KeptKeysCount | runtime/internal/context/projection_bounds.go:97-117 | Exactly the allowed number of keys is kept. |
| ProjectionBounds.RankIsPosition | runtime/internal/context/projection_bounds.go:135-149 | The rank of a key is its position in the sorted keys. |
| TokenEstimate.EstimateText | runtime/internal/tokenestimate/tokenestimate.go:9-30 | The carry loop equals the sum over the maximal word runs and the other runes. |
| TokenEstimate.LengthBounds | runtime/internal/tokenestimate/tokenestimate.go:9-30 | A text of n runes costs between ceil(n / 4) and n tokens. |
| TokenEstimate.JoinBounds | runtime/internal/tokenestimate/tokenestimate.go:9-30 | The estimate of a concatenation is the sum of the estimates or one less. |
| TokenEstimate.JoinAtBoundary | runtime/internal/tokenestimate/tokenestimate.go:61-69 | It is the sum when a rune at the join is not word-like. |
| TokenEstimate.JoinExactly | runtime/internal/tokenestimate/tokenestimate.go:9-30 | The difference is exactly what the two runs that meet save when charged as one. |
| TokenEstimate.TokensTell | runtime/internal/tokenestimate/tokenestimate.go:9-31 | A token is at most four runes, word-like text costs no more than that, and a rune that is not word-like costs a token. |
| JsonText.QuoteIsRead | runtime/internal/tokenestimate/tokenestimate.go:32-40 | A quoted text read back as a JSON string is the text, rune for rune. |
| Lane.RunKeepsInvariant | runtime/internal/session/lane.go:60-161 | For every interleaving of enqueue, close, cancellation, admission and worker steps: each accepted task is disposed of, in hand or queued, in order of acceptance; the history only grows. |
| Lane.NewLaneInvariant | runtime/internal/session/lane.go:39-58 | A new lane satisfies the invariant. |
| Lane.StepKeepsInvariant | runtime/internal/session/lane.go:60-161 | Every atomic step keeps order, admission, shutdown and counts. |
| Lane.DispositionsFollowAcceptance | runtime/internal/session/lane.go:92-143 | Every task is disposed of at most once and in order of acceptance, and runs come before aborts. |
| Lane.OutstandingIsBounded | runtime/internal/session/lane.go:60-119 | At most one task is running, and at most capacity + 1 accepted tasks have neither ended nor been aborted. |
| Lane.DoneIsComplete | runtime/internal/session/lane.go:92-97 | Once the worker is done the queue is empty and every accepted task was run or aborted exactly once. |
| Lane.DoneIsFinal | runtime/internal/session/lane.go:60-97 | After that nothing is accepted, run or aborted any more. |
| Lane.RunsOnlyAdmitted | runtime/internal/session/lane.go:104-117 | A task runs only with its gate open and the lane not cancelled; otherwise it can only be aborted. |
| Lane.CancelledLaneEnds | runtime/internal/session/lane.go:92-143 | Once a lane is cancelled every worker step brings it closer to done and no other step sets it back. |
| Lane.CancelledLaneMoves | runtime/internal/session/lane.go:92-143 | A cancelled lane is never blocked, except by the task that runs. |
| Lane.OpenLaneProgresses | runtime/internal/session/lane.go:92-119 | While a lane is not cancelled nothing is aborted, and each step of its worker brings what was accepted closer to its end. |
| Lane.OpenLaneMoves | runtime/internal/session/lane.go:92-132 | The worker of an open lane waits only for a task, or for the gate of the task it has. |
| Lane.ExecutionLane.Enqueue | runtime/internal/session/lane.go:60-74 | A task is refused exactly when the lane is closed or its queue is full, whatever the worker does, and is otherwise the last of the queue. |
| Lane.ExecutionLane.Close | runtime/internal/session/lane.go:76-86 | Closing marks the lane closed and then cancels it; a second close does nothing. |
| Lane.ExecutionLane.DrainQueued | runtime/internal/session/lane.go:134-143 | Exactly the queued tasks are aborted, first come first. |
| Lane.ExecutionLane.Leave | runtime/internal/session/lane.go:92-97 | When the worker leaves, the lane is closed, exactly the queued tasks are aborted in order, and the worker is done. |
| Lane.ExecutionLane.WorkerStep | runtime/internal/session/lane.go:99-118 | What the worker does next is one of the enabled steps of the machine, whichever ready branch a select takes. |
| Gateway.RunKeepsFit | runtime/internal/gateway/gateway.go:107-287 | Every run of a connection keeps lanes, acknowledgements, seen ids and history in agreement. |
| Gateway.ConnectedFits | runtime/internal/gateway/gateway.go:107-113 | A new connection satisfies it. |
| Gateway.MoveKeepsFit | runtime/internal/gateway/gateway.go:107-287 | Every move of the receive loop and of a lane keeps that agreement. |
| Gateway.StartComesAfterAck | runtime/internal/gateway/gateway.go:272-286 | A turn starts only after the ACCEPTED acknowledgement of its event was sent for the same agent; so refused and unacknowledged events never run. |
| Gateway.StartsInAckOrder | runtime/internal/gateway/gateway.go:209-286 | The events started for an agent are the first of those acknowledged for it, in that order. |
| Gateway.EventsRunOnce | runtime/internal/gateway/gateway.go:188-198 | On one connection each event id is acknowledged at most once and started at most once, for whatever agent. |
| Gateway.NoLaneOutlivesStore | runtime/internal/session/lane.go:208-225 | When the loop has closed its lanes all of them are cancelled and none is added. |
| Gateway.AcknowledgedMove | runtime/internal/gateway/gateway.go:262-286 | While the loop receives, every open lane with an acknowledged event that has not started has a worker step to take, which brings it closer. |
| Gateway.RunKeepsGates | runtime/internal/gateway/gateway.go:262-286 | In every run the barrier of each acknowledged event is lifted, or the loop is about to lift it. |
| Gateway.OneRunsAndOneWaits | runtime/internal/gateway/gateway.go:245-252 | For each agent at most one event runs and one waits behind it. |
| Gateway.Receiver.DispatchGameEvent | runtime/internal/gateway/gateway.go:167-287 | An event is accepted exactly when the store is open, it has an id that was not accepted before and a target, and the lane of its agent is absent, or open with room in its queue; it is then the last in that queue. On the object with all its lanes, dispatching is the move Receive for an event that is refused, the whole sequence of moves that admits it for one that is accepted, and Receive alone when the acknowledgement cannot be sent; no other lane changes. |
| Gateway.AdmissionMoves | runtime/internal/gateway/gateway.go:265-286 | Receive, SendAccepted, Remember and Release are enabled one after the other for an event that is new and has room on its lane, and lead to the connection in which it is admitted. |
| Gateway.LaneStore.GetOrCreate | runtime/internal/session/lane.go:188-206 | A closed store refuses; a known key gives the same lane; a new key gives a new lane and changes no other. |
| Gateway.LaneStore.Close | runtime/internal/session/lane.go:208-225 | Every lane of the store ends as the move CloseLane leaves it; closing again changes nothing. |
| AgentTarget.ResolveAgentTarget | runtime/internal/gateway/gateway.go:340-383 | An event resolves exactly when its type and all parts of the identity are given and all references to its target agree; the key is made of the trimmed ids, the target is a reference to it with its parts trimmed. Otherwise the error is the first of: no type, no target, conflicting references, no reference, missing game or world. |
| AgentTarget.CanonicalTargetEntity | runtime/internal/gateway/gateway.go:385-404 | A conflict is reported exactly when two references to the target differ after trimming, no target exactly when there is no reference. |
| AgentTarget.ConflictTells | runtime/internal/gateway/gateway.go:385-428 | References conflict exactly when two of them differ in more than white space around their parts. |
| StreamEnvironment.FirstResultIsReturned | runtime/internal/gateway/stream_environment.go:103-193 | For every interleaving and every choice of select, a result returned for a call carries its action id and is the first one delivered to it, also when it arrives before the wait. |
| StreamEnvironment.RunKeepsFit | runtime/internal/gateway/stream_environment.go:56-334 | Every run keeps the slots, their channels and the registrations consistent. |
| StreamEnvironment.RunDelivers | runtime/internal/gateway/stream_environment.go:273-282 | What a slot counts as delivered is exactly what the run delivered while the call was registered. |
| StreamEnvironment.OtherCallsAreUnchanged | runtime/internal/gateway/stream_environment.go:262-282 | A delivery changes at most the call registered under its id. |
| StreamEnvironment.LaterResultIsIgnored | runtime/internal/gateway/stream_environment.go:273-282 | A second result for a call changes neither its channel nor its stage. |
| StreamEnvironment.StartIsForItsAction | runtime/internal/gateway/stream_environment.go:149-160 | A start update that is returned was sent for that action and says that it starts. |
| StreamEnvironment.ObservationIsAsRequested | runtime/internal/gateway/stream_environment.go:228-248 | An observation that is returned is of the requested world and entity. |
| StreamLaws.FirstAnswerIsReturned | runtime/internal/gateway/stream_environment.go:56-101 | For every interleaving, a caller that waits for an observation has in its channel, and one that took an answer returned, the first answer given while it was registered: the observation asked for, a mismatch, the error of the adapter or the end of the stream. |
| StreamLaws.ObservationArrives | runtime/internal/gateway/stream_environment.go:228-248 | An observation of the world and entity asked for arrives as it is, any other as a mismatch. |
| StreamLaws.FirstReplyIsReturned | runtime/internal/gateway/stream_environment.go:103-193 | For every interleaving, the first reply to an action waits in its channel until it is taken; a call that took it returned it. |
| StreamLaws.CallReturns | runtime/internal/gateway/stream_environment.go:103-193 | A call returns in these four ways and in no other, with the reply that goes with each. |
| StreamLaws.CallGoesOn | runtime/internal/gateway/stream_environment.go:103-193 | How a call is registered, sent and waited for. |
| StreamLaws.ObservationReturns | runtime/internal/gateway/stream_environment.go:56-101 | How a call for an observation goes on and ends; when it is over it is not registered. |
| StreamLaws.FailureTells | runtime/internal/gateway/stream_environment.go:300-334 | When the stream fails nothing stays registered, and every call that was gets the failure where there is room. |
| StreamEnvironment.AnswerHoldsLoop | runtime/internal/gateway/stream_environment.go:228-260 | Answering an observation, with what was observed or with an error, holds up the receive loop exactly when its call has an answer waiting already. |
| StreamEnvironment.HeldLoopNeverGoesOn | runtime/internal/gateway/stream_environment.go:228-260 | If the caller left without taking that answer, the receive loop stays held up in every run from there. |
| StreamEnvironment.LoopCanBeHeldForGood | runtime/internal/gateway/stream_environment.go:56-101 | A run that gets there: an observation is answered twice before its caller gives up. |
| StreamEnvironment.OnlyExpiredWaitLeavesEntry | runtime/internal/gateway/stream_environment.go:172-193 | Of all steps that end a wait for an action, exactly the wait whose context was done from the start leaves the action registered. |
| StreamEnvironment.ExpiredWaitLeavesEntry | runtime/internal/gateway/stream_environment.go:172-193 | A run with such a wait, at the end of which the action is still registered and nobody waits for it. |
| StreamEnvironment.EntryChanges | runtime/internal/gateway/stream_environment.go:343-359 | The entry of an action goes or is replaced exactly when the stream fails, the id is registered again or a call under the id returns. |
| StreamEnvironment.EntryStays | runtime/internal/gateway/stream_environment.go:343-359 | The entry stays through every run without such a step. |
| StreamEnvironment.HeldLoopStays | runtime/internal/gateway/stream_environment.go:228-260 | No step of a caller or of the loop gets such a held loop going. |
| StreamEnvironment.PendingCalls.FailAllPending | runtime/internal/gateway/stream_environment.go:300-334 | Every call is unregistered and gets a failure unless something waits for it already. |
| StreamEnvironment.PendingCalls.ResolveActionResult | runtime/internal/gateway/stream_environment.go:273-282 | The result goes to the registered call if its channel is empty and nowhere otherwise. |
| StreamEnvironment.PendingCalls.ResolveActionStatusUpdate | runtime/internal/gateway/stream_environment.go:262-271 | The update goes to the registered call if its channel has room and nowhere otherwise. |
| StreamEnvironment.PendingCalls.ResolveObservation | runtime/internal/gateway/stream_environment.go:228-248 | The observation is put into the channel of the call that asked: as it is if world and entity agree, else as a mismatch; a full channel holds up the loop with it, and an unknown call changes nothing. |
| InteractionStore.RunKeepsInverse | adapters/stardew/src/Runtime/InteractionContextStore.cs:44-166 | Where no event id is used under two keys the two dictionaries are inverse after every run of the operations. |
| InteractionStore.OneInteractionPerKey | adapters/stardew/src/Runtime/InteractionContextStore.cs:36-37 | Each world, npc and player has at most one live interaction. |
| InteractionStore.HandoffKeepsInverse | adapters/stardew/src/Runtime/InteractionContextStore.cs:81-116 | A handoff keeps the dictionaries inverse if and only if it is not one that is accepted for an event id held under another key. |
| InteractionStore.HandoffCanBreakInverse | adapters/stardew/src/Runtime/InteractionContextStore.cs:90-95 | Two handoffs with one event id for two players leave the dictionaries not inverse. |
| InteractionStore.HandoffDisplaces | adapters/stardew/src/Runtime/InteractionContextStore.cs:97-115 | A handoff displaces only a committed event of the same conversation and key and leaves every other interaction as it is. |
| InteractionStore.LateReleaseFreesNothing | adapters/stardew/src/Runtime/InteractionContextStore.cs:97-166 | The event that a handoff displaced was committed and of the same conversation; releasing, discarding or committing it afterwards, however many other operations later, changes nothing, and the key stays with the event of the handoff. |
| InteractionStore.GoneStaysGone | adapters/stardew/src/Runtime/InteractionContextStore.cs:44-166 | An event that was displaced stays gone until it is reserved again, and releasing it meanwhile frees nothing. |
| InteractionStore.ReserveKeepsInverse | adapters/stardew/src/Runtime/InteractionContextStore.cs:44-69 | A reservation keeps the dictionaries inverse, also when it moves an event to another key. |
| InteractionStore.RemoveKeepsInverse | adapters/stardew/src/Runtime/InteractionContextStore.cs:131-166 | Discarding and releasing keep the dictionaries inverse. |
| InteractionLaws.ReserveTells | adapters/stardew/src/Runtime/InteractionContextStore.cs:44-69 | A committed event is left as it is, a key in flight for another event is refused, and any other reservation holds the event under its key; no other entry changes. |
| InteractionLaws.HandoffTells | adapters/stardew/src/Runtime/InteractionContextStore.cs:81-116 | A handoff is refused exactly for a key in flight for another event that is not committed or of another conversation; otherwise its event is held, the other one is gone, and no other entry changes. |
| InteractionLaws.RemoveTells | adapters/stardew/src/Runtime/InteractionContextStore.cs:131-166 | A released event is gone and its key free; a committed one is not discarded; no other entry changes. |
| InteractionLaws.ReleaseMakesRoom | adapters/stardew/src/Runtime/InteractionContextStore.cs:44-166 | After a release the key can be reserved and handed to any event. |
| InteractionStore.InteractionContextStore.TryReserve | adapters/stardew/src/Runtime/InteractionContextStore.cs:44-69 | Succeeds exactly for a committed event or a key not in flight for another event; blank ids are argument errors that change nothing. |
| InteractionStore.InteractionContextStore.TryReserveHandoff | adapters/stardew/src/Runtime/InteractionContextStore.cs:81-116 | Succeeds exactly for a free key, the own key, or the key of a committed event of the same conversation. |
| InteractionStore.InteractionContextStore.DiscardPending | adapters/stardew/src/Runtime/InteractionContextStore.cs:131-144 | Removes and returns exactly an uncommitted interaction. |
| InteractionStore.InteractionContextStore.Release | adapters/stardew/src/Runtime/InteractionContextStore.cs:154-166 | Removes and returns an interaction and frees its key only if it holds it. |
| InteractionStore.InteractionContextStore.TryGet | adapters/stardew/src/Runtime/InteractionContextStore.cs:168-179 | Returns an interaction exactly when it is committed. |
| InteractionStore.InteractionContextStore.IsInFlight | adapters/stardew/src/Runtime/InteractionContextStore.cs:71-79 | While the dictionaries are inverse, true exactly when some live interaction is of that world, npc and player. |
| InteractionStore.InteractionContextStore.Commit | adapters/stardew/src/Runtime/InteractionContextStore.cs:118-129 | Commits the interaction of the event if there is one and changes nothing else. |

## Left out

- gRPC streams, protobuf messages, HTTP providers, JSON parsing, file and configuration loading: a message is a step that may fail.
- Game calls, menus, rendering and movement of the Stardew adapter.
- Clocks: a timeout is a cancellation that may come at any step.
- The text of prompts and of the rendered request: its size is an arbitrary function, so that the fit is proved for every renderer.
- Validation of tool arguments against schemas and the building of action requests: two arbitrary predicates.
- Tool admission, the memory store, the trace recorder, log and error texts: the tool view, the list of memories and whether appending succeeds are inputs.
- The projection of events, facts and observations from protocol messages, and of tool arguments and results into a transcript before it is cut into groups.
- The section reports with their token counts: of the report the model keeps the retention counts, the cropped sections and the reason codes.
- TryValidateCurrentState and TryResolve of the interaction store, and the positions in its snapshots: they compare fields and change nothing.
- The error for a queue size that is not positive, which the constructors of lane and lane store return; the sizes of the model are natural numbers.
- A nil environment, observation or event, which the Go code checks for in places: such values are not in the model.
- Scheduler.RunParallelGroup: the goroutines and the channel are the set of calls in flight, from which any call may end next; a call that was cancelled may end in any way, but in a run without a technical error its reply is fixed.
- Scheduler.ScheduleIndependence: assumes that what the environment answers to a call does not depend on when it is asked.
- Loop.Turn.HandleEvent: the checks on key, target and catalog share one error value.
- Loop.Turn.RunStep: every answer of the world is a function of the step and the transcript, which is arbitrary but fixed for a turn.
- RequestBudget.BuiltFits: in the JSON texts of event and observation the members of the identity, the entities and the contents of maps are arbitrary texts.
- Gateway.RunKeepsFit: the connection's handshake and the deliveries to pending calls are not part of this machine; the deliveries are in StreamEnvironment.
- StreamEnvironment.FirstResultIsReturned: a wait is modelled for an action whose start has returned; two waits at once for one action do not occur.
- InteractionStore.InteractionContextStore.TryReserve: the lock of the store makes each operation one step; null snapshots are not modelled.
- Build.Build: the checks of the input for missing and contradictory ids (runtime/internal/context/context.go:878-940) come before it and are not modelled.
- Memory.ProjectRecentMemories: how a record becomes a projection is an arbitrary function.
- ProjectionBounds.ProjectBoundedMap: the size of a map in tokens is an arbitrary function that may also fail.
