# A verified model of the content operations agent

The repository runs an AI content team: a planner turns a request into a small graph of steps, a
pipeline executes them one by one and survives crashes, the browser follows the run over a
server-sent event stream, and write tools, background jobs and publication calls are guarded so
that nothing irreversible happens twice. This project models the code behind those promises in
Dafny and proves them, for all inputs, all runs and all interleavings of the model.

`dafny verify dfyconfig.toml` checks the whole project.

## How it is laid out

| file | what it models |
|---|---|
| `JsonValues.dfy`, `CanonicalJson.dfy`, `CanonicalText.dfy` | JSON values, the text `json.dumps` gives them, the canonical text calls are compared by, and the grammar it follows |
| `JsonBlock.dfy` | finding a JSON block in prose |
| `PlanSchema.dfy`, `PlanRepair.dfy`, `PlanParse.dfy` | planner text to a valid plan: validation, coercion, structural repair |
| `PlanEnvelope.dfy`, `PlanEntries.dfy`, `PlanClosing.dfy`, `PlanRuns.dfy`, `Selections.dfy` | the same read off the JSON: envelopes and the schema, which entries are kept and as what, how a plan is closed, the run of the repair passes |
| `Pipeline.dfy`, `PipelineHistory.dfy`, `PipelineTurns.dfy` | plan-then-execute, revisions, the loop and the graph; a run told turn by turn |
| `PipelineRecovery.dfy`, `PipelineResumes.dfy` | crash and resume: what every attempt may write, and that a resumed run goes on where it stopped |
| `EventStream.dfy`, `EventDelivery.dfy`, `RunEventHub.dfy`, `TokenBatcher.dfy` | the event log, the streaming server, the reconnecting client, wake-ups, coalesced tokens |
| `SseParser.dfy`, `SseBlocks.dfy`, `SseCuts.dfy`, `SseChunking.dfy`, `SseRoundTrip.dfy` | the incremental event-stream framer, what a block means, where its chunk edges show, one by one and all together, and the server's frames |
| `JobLeases.dfy`, `JobOutcomes.dfy` | background jobs: leases, retries, the reaper; which move sets which status |
| `Capabilities.dfy`, `CapabilityLives.dfy` | the policy gate in front of write tools and one-time capabilities; the life of a capability |
| `Idempotency.dfy`, `KeyedReplays.dfy`, `PublicationRequest.dfy`, `ScheduleCommit.dfy` | keyed writes, what a key answers, the request for a publication, and the fan-out commit of a publishing plan |
| `McpPublish.dfy`, `McpOutcomes.dfy` | the publish call with its fallback, the status and ledger guards around an attempt, and the job's retries |
| `PromptCache.dfy` | frozen system prompts of many processes, and their worker threads, over one epoch file |
| `Scheduler.dfy` | the greedy publishing scheduler |
| `RateLimit.dfy` | the fixed-window request limiter |
| `Wrappers.dfy`, `Writes.dfy` | an option type and a law of sequences; how a write can end |

Code that changes fields or runs loops is a class or a method here too (`PipelineExecution`,
`PipelineStream`, `Batcher`, `SseReader`, `Calendar`, `Desk`, `Publication`, `FrozenPrompts`,
`EpochFile`, `Limiter`, and the loops of the scheduler, the extractor, the coercion pass and the parser). Each method is proved
equal to a function of its old state, and the properties are proved about that function. Protocols
with several actors are state machines whose moves are the actors' atomic steps.

## What turned out differently from the documentation

The model follows the code. Where the code and its comments disagree, or a stated property fails,
the failing case is a lemma with its witness, next to the exact condition.

* `frontend/src/api/sse.ts:9-13` promises that a frame may be split anywhere. A chunk edge between
  CR and LF adds a line end to what the framer sees (`SseParser.SeenTextIsBodyIff`); any other edge
  cannot show (`SseCuts.EdgeIsInvisible`). Whether a cut pair shows in the frames is decided by the
  block around it: `SseCuts.CutPairShowsIff` with `SseCuts.HalvesEmitAlikeIff` says that it stays
  hidden exactly when the line end falls outside every block, or the two halves emit what they emit
  joined. `SseRoundTrip.CutPairSplitsFrame` is a family that shows, `SseRoundTrip.HarmlessCut` one
  that does not. For a whole chunking, the frames are those of the pieces between the cut pairs,
  each read alone (`SseChunking.ChunksReadPieces`), and they are the frames of the body if and only
  if in every block at most one piece holds data, under the event name of the block
  (`SseChunking.ChunkingShowsIff` with `SseChunking.EmitsAlikeIff`).
* `src/utils/idempotency.py:112` says a keyed write runs at most once. A write that raises gives its
  key back even if it had taken effect (`src/utils/idempotency.py:139-142`). A key's effects are its
  releases after an effect, plus at most one (`Idempotency.EffectAtMostOnce`); an effect can happen
  again exactly while the key is open or pursued (`Idempotency.SecondEffectIff`), and only a release
  after an effect makes that so once it has happened (`Idempotency.OnlyLeaksReopen`).
  `src/api/routes/publish.py:131-133` keys the creation of a publication against a second row; a
  request that fails after its row is persisted, as every valid one does at capacity, gets one on
  retry (`PublicationRequest.RetryDuplicatesIff`, `PublicationRequest.FullQueueDuplicates`). A commit
  of a plan repeats exactly the rows whose keys were given back after they had landed
  (`ScheduleCommit.Calendar.RepeatsIff`, `ScheduleCommit.Calendar.RaisesThenRetries`).
* `src/api/services/plan_schema.py:264` says parsing never raises. It does if and only if the first
  `json.loads` raises something other than a syntax error, such as nesting too deep or an integer too
  long; the same error inside a repair pass is swallowed (`PlanParse.ParseIsSound`).
* `src/jobs/runner.py:166-167` says duplicate deliveries do not revive permanent failures. One that
  is past the status gate does, if its lease is still to take or still its own, and nothing else
  can (`JobLeases.PermanentFailureIsFinalIff`, reached by `JobLeases.DuplicateRevivesFailure`).
* `src/jobs/runner.py:197` writes the count it read, plus one. A start raises the count if and only
  if it read at least what the row has, and a stale one lowers it (`JobLeases.StartUsesBudgetIff`,
  reached by `JobLeases.StaleStartLowersCount`). Retries stay within the budget plus what stale
  starts gave back (`JobLeases.RetriesWithinBudget`), so there is a bound without stale starts
  (`JobLeases.RetriesAreBounded`) and none with them (`JobLeases.DuplicatesBreakBound`).
* `src/jobs/reaper.py:8-10` says reclaiming costs no attempt. The reclaim itself does not
  (`JobLeases.ReclaimIsFree`), but the evicted start stays counted: a transient error is retried if
  and only if evicted and ended attempts together, less those given back, are within the budget
  (`JobLeases.EvictionsAreCharged`), and maxRetries - 1 evictions make the first error final
  (`JobLeases.EvictionsUseUpBudget`).
* `src/jobs/reaper.py:144-165` keeps a reclaimed job marked until it is enqueued, but the mark goes
  before anybody has started the job. A reclaimed, queued job stops being on its way by exactly the
  moves `JobLeases.LostIff` names: its last delivery dies or gives up before the start with no mark
  left, or an acknowledgement comes after that; along a run nothing is lost if and only if none of
  them is made (`JobLeases.RedeliveredIff`). One reaper is enough
  (`JobLeases.OneReaperStrandsJob`), a second adds the acknowledgement of an older reclaim
  (`JobLeases.TwoReapersStrandJob`), and a stranded job stays so (`JobLeases.StrandedStays`).
* `src/api/services/run_event_hub.py:71-75` trusts the healthy flag, which outlives the connection
  until the listener notices (`RunEventHub.FlagOutlivesLink`). While it says healthy, a commit
  reaches a sleeping stream if and only if the connection is alive
  (`RunEventHub.CommitReachesSleeperIff`).
* A checkpoint with an empty answer is saved but not trusted by a resume, so a revision may rename
  its step (`PipelineRecovery.EmptyAnswerMayBeRelabelled`); over all runs the checkpoints of a text
  keep their steps if and only if the text is not empty (`PipelineRecovery.LabelledIff`).
* A step whose checkpoint or event write raises after it answered is marked failed while its output
  and tokens stay counted (`src/api/services/dynamic_pipeline.py:374-390`);
  `PipelineHistory.OutputsAgreeExactly` and `PipelineHistory.TotalsAgreeExactly` say that this is the
  only way outputs and totals drift.
* `src/api/services/dynamic_pipeline.py:154-158` empties the token buffer before the write, so
  coalescing cannot be told from writing every delta exactly when every write lands
  (`TokenBatcher.NothingLostIff`).
* `src/integrations/mcp_client.py:160-169` takes every status below 500 for a refusal. A status that
  is no success and no 4xx (a redirect) after a publish that was accepted leads to a second one
  (`McpPublish.PostedAtMostOnceIff`).
* `src/api/services/publish_service.py:118-122` says a publication is never executed twice. The
  status gate and the ledger row do keep a finished, claimed or completed publication from another
  call (`McpPublish.ClosedStaysClosed`), but the row is given back whenever an error leaves the
  call. An attempt can lead to a second post if and only if it leaks (`McpPublish.SafeIffNotLeaky`,
  `McpPublish.SecondPostIff`): it may have posted, the publication is not left marked as posted, the
  row is given back, and the job sees an error it takes for transient or loses its worker before it
  records one. With a working database the replies that do so are JSON of the wrong shape, a
  failure of the tool that reads as transient, and odd statuses (`McpPublish.RepliesThatLeak`).
* `src/jobs/error_classifier.py:32-35` calls business logic, permission and integrity errors
  permanent. The first two are retried like any unknown error, unless another rule rejects them; an
  integrity violation is retried when its message reads like a timeout or a broken connection
  (`McpPublish.VerdictsAsDocumented`).
* `src/api/routes/memory.py:139-152` drops cached prompts on a worker thread, a prompt and its stamp
  in two steps, beside the event loop that reads and writes both. A drop that takes out a stamp
  while a prompt of the key is cached, or has just been read, leaves a prompt that is served
  whatever its date and epoch (`src/api/services/chat_agent.py:885`). Nothing else does
  (`PromptCache.ExposedIff`), every other prompt served is fresh (`PromptCache.PromptsAreFresh`),
  and between calls a stale prompt can follow exactly from such a state
  (`PromptCache.StaleIffExposed`), which any thread can get into (`PromptCache.TornDropExposes`,
  `PromptCache.TornReadServesStale`).
* Refreshing the prompt snapshot of the empty thread id, which the route accepts, reaches nobody
  (`PromptCache.EmptyThreadRefreshesNobody`).
* Stepping the scheduler over 9999-12-31 raises (`Scheduler.Propose`, outcome `PastLastDay`).
* The limiter admits at most 2 * limit - 1 requests in an interval as long as its window, one less
  than twice the limit, and that many can happen. The daily sweep is invisible exactly for windows of
  up to a day, to the microsecond.

## Assumptions

* The argument hash is an injective function of the canonical text.
* A database transaction is one atomic step with the guards its statement has; where the caller acts
  on an error, it may see one whether or not the transaction landed.
* What the outside answers (language models, servers, clocks, `json.loads`, conversion of JSON
  values to text or integers) is a parameter; `ReadsIntegers` says that an integer reads as itself.
* For publishing: a connection that could not be opened, a 4xx answer and one of the four rejection
  codes mean that nothing was posted; any other answer leaves it open.
* A read or a write of a dictionary is one atomic step; the event loop serves one prompt at a time.

## Model

| member | source | states |
|---|---|---|
| CanonicalJson.PrintInjective | src/utils/canonical.py:15-16 | printed JSON is prefix-free: equal texts before stop characters come from equal values |
| CanonicalJson.SameMeaningSameNormal | src/utils/canonical.py:15-16 | values equal up to the order of object members, at any depth, sort to the same value |
| CanonicalJson.CanonicalIffSameMeaning | src/utils/canonical.py:15-21 | two arguments have one canonical text if and only if they are equal with objects read as maps |
| CanonicalText.PrintSpells | src/utils/canonical.py:15-16 | printing spells the value by the grammar of RFC 8259, with exactly the white space of the style and only the required escapes |
| CanonicalText.CanonicalSpells | src/utils/canonical.py:15-16 | the canonical text spells, without white space, a value of the same meaning with the keys of every object in code point order |
| JsonBlock.ExtractJsonBlock | src/api/services/plan_schema.py:395-435 | the bracket scanner, with its string, escape and depth state, returns the block of the first opener or nothing |
| JsonBlock.ExtractionUndoesPrinting | src/api/services/plan_schema.py:395-435 | a printed array or object comes back whole from any prose without brackets before it and any text after it |
| JsonBlock.EarlierBracketWins | src/api/services/plan_schema.py:401-408 | a bracket in the prose before decides the search instead |
| PlanSchema.NoViolationIffValid | src/api/services/plan_schema.py:161-195 | no violation is reported if and only if the plan is numbered 1..n, n at most 8, acyclic, and ends on a writer or editor |
| PlanSchema.SortedSet | src/api/services/plan_schema.py:359-373 | the edges of a step as a strictly ascending list with the same members |
| PlanSchema.Validate | src/api/services/plan_schema.py:347-391 | steps come back with exactly their invariant violations, or there are none and a schema violation |
| PlanSchema.RepairCoerceSteps | src/api/services/plan_schema.py:451-506 | the salvaging loop, its renumbering and its edge remapping compute the coercion PlanEntries.CoercionOfEntries pins, raising included |
| PlanSchema.ParsePlannerOutput | src/api/services/plan_schema.py:258-326 | the guarded first reading, which lets other errors through, and the pass loop, swallowing pass errors and counting repairs, have the outcome PlanRuns.ParseRuns pins |
| PlanRepair.SortSorts | src/api/services/plan_schema.py:481-482 | sorting by index sorts and keeps the multiset of steps |
| PlanRepair.ValidateReadsBack | src/api/services/plan_schema.py:347-391 | a clean plan, serialised and validated again, is unchanged |
| PlanRepair.KeptIsClean | src/api/services/plan_schema.py:451-506 | what coercion keeps is numbered, bounded, acyclic and has ascending edges |
| PlanRepair.CoercionKeepsGraph | src/api/services/plan_schema.py:481-506 | an edge from i to j exists exactly when i's entry named j's original index and that was the smaller; order and names are kept |
| PlanRepair.SurvivorsComeFromEntries | src/api/services/plan_schema.py:455-479 | every survivor comes from one entry, with exactly the edges that entry named |
| PlanRepair.CoercionIdempotent | src/api/services/plan_schema.py:451-506 | coercing a coerced plan changes nothing |
| PlanParse.StructurePassOfClean | src/api/services/plan_schema.py:509-542 | on a coerced plan the structure pass trims to the last draft or appends a writer, and never raises |
| PlanParse.StructuredIsValid | src/api/services/plan_schema.py:509-542 | the result is valid unless eight steps survived without a draft |
| PlanParse.ParseIsSound | src/api/services/plan_schema.py:258-326 | parsing raises if and only if the first reading raises no syntax error; else the outcome is a fallback with violations, or a valid plan within the repair budget |
| PlanParse.FallbackExactly | src/api/services/plan_schema.py:258-326 | with three repairs and something coerced, the answer is lost if and only if it cannot be read, or was invalid as it stood, eight survived and none writes a draft |
| PlanParse.StrictRoundTrip | src/api/services/plan_schema.py:258-292 | a valid plan that is serialised is accepted unchanged without repair |
| PlanParse.ProseRoundTrip | src/api/services/plan_schema.py:294-326 | printed into prose it costs exactly one repair |
| PlanParse.SalvagedRevision | src/api/services/plan_schema.py:240-255 | a salvaged revision is numbered, bounded and acyclic; when its final draft may be missing |
| PlanEnvelope.EnvelopeIsInvisible | src/api/services/plan_schema.py:332-344 | a dict whose "steps" is a list, or else whose "plan" is one, is validated, coerced and closed as that bare list, whatever its other members are |
| PlanEnvelope.EnvelopeParses | src/api/services/plan_schema.py:258-344 | text that reads as an envelope is answered exactly as text that reads as the list in it |
| PlanEnvelope.NoListNoPlan | src/api/services/plan_schema.py:332-350 | a value that carries no list has the wrong shape, and no repair pass makes anything of it |
| PlanEnvelope.NoListParses | src/api/services/plan_schema.py:258-350 | text that reads as such a value is answered with the fallback and that violation |
| PlanEnvelope.EnvelopesCarry | src/api/services/plan_schema.py:332-344 | both envelopes, with any other members |
| PlanEnvelope.EnvelopeRoundTrip | src/api/services/plan_schema.py:258-344 | a valid plan that is serialised into any envelope is accepted unchanged without repair |
| PlanEnvelope.DraftIff | src/api/services/plan_schema.py:86-106 | the schema takes an entry if and only if it has the five fields and types and no other field, the last two by default; and the step it stands for |
| PlanEnvelope.SortIsStable | src/api/services/plan_schema.py:359-373 | sorting by index keeps the order of equal indices |
| PlanEnvelope.ValidateReadsEntries | src/api/services/plan_schema.py:347-373 | a list is refused as a whole if it is empty or one entry is not taken; else the steps are those of its entries in order of index, with edges in order |
| PlanEnvelope.ViolationsIff | src/api/services/plan_schema.py:161-195 | each violation is reported if and only if the plan has that fault |
| PlanEntries.SalvageIff | src/api/services/plan_schema.py:465-484 | said of its JSON: an entry is kept if and only if it is a dict with a known agent, its own or the next index is free, and its references can be read; and exactly when reading it raises |
| PlanEntries.SalvagedBecomes | src/api/services/plan_schema.py:471-493 | the step it becomes: index, trimmed texts with the default description, and exactly the integers and digit texts it names below its index |
| PlanEntries.SelectionIsSalvaged | src/api/services/plan_schema.py:462-493 | whatever selection of the entries meets those two laws is the one salvaging makes |
| PlanEntries.CoercionOfEntries | src/api/services/plan_schema.py:451-506 | over the first eight entries, however carried: coercion raises if and only if one breaks it, keeps nothing if and only if all are passed over, and else numbers the selected steps by old index and keeps the edges between them |
| PlanClosing.StructureOfEntries | src/api/services/plan_schema.py:509-542 | for any list of entries: when nothing is closed, when closing raises, the cut at the last draft, or the appended writer with its index and all integer indices as inputs |
| PlanRuns.ExtractIff | src/api/services/plan_schema.py:438-448 | extraction repairs if and only if nothing was read before and the block found reads as a value that is not null; exactly when it raises |
| PlanRuns.ParseRuns | src/api/services/plan_schema.py:279-326 | every parse is a run of the passes in their order, each applied to what the one before left or skipped as useless, ended by the first valid plan, the budget, or the last pass |
| Pipeline.NextPending | src/api/services/dynamic_pipeline.py:430-437 | the first pending step of a plan |
| Pipeline.PipelineExecution.SelectNextStep | src/api/services/dynamic_pipeline.py:251-258 | the loop is the selection PipelineTurns.SelectIff pins: the first pending step of eight, none when cancelled |
| Pipeline.PipelineExecution.ExecuteCurrent | src/api/services/dynamic_pipeline.py:327-390 | the new state after an answer, a failure, and a failure after the answer |
| Pipeline.PipelineExecution.ReviseAfterStep | src/api/services/dynamic_pipeline.py:394-439 | a revision only after the reviewing agent or a failure, and at most twice; then continue at the first pending step |
| Pipeline.PipelineExecution.RunLoop | src/api/services/dynamic_pipeline.py:205-218 | the legacy loop performs the specified sequence of operations and ends in the specified state |
| Pipeline.PipelineExecution.RunGraph | src/api/services/pipeline_graph.py:31-65 | the graph, walked node by node, performs the same sequence and ends in the same state |
| Pipeline.SelectFinds | src/api/services/dynamic_pipeline.py:251-258 | selecting changes nothing but the position, and finds a pending step |
| Pipeline.ReviseMakesProgress | src/api/services/dynamic_pipeline.py:394-439 | a revision keeps the plan within its bounds and uses up fuel |
| PipelineHistory.UndisturbedIff | src/api/services/plan_schema.py:202-233 | a revision is refused if and only if it drops, renames or rewires a completed step |
| PipelineHistory.RevisionKeepsHistory | src/api/services/dynamic_pipeline.py:911-945 | an accepted revision keeps every completed step and completes none |
| PipelineHistory.OutputsAgreeExactly | src/api/services/dynamic_pipeline.py:327-390 | outputs stay those of the completed steps, unless and only unless a write after the answer raised |
| PipelineHistory.TotalsAgreeExactly | src/api/services/dynamic_pipeline.py:327-390 | the same for the token totals |
| PipelineHistory.RunKeepsHistory | src/api/services/dynamic_pipeline.py:205-218 | along every run completed steps never change and plans stay bounded and acyclic |
| PipelineHistory.RunKeepsTotals | src/api/services/dynamic_pipeline.py:327-337 | totals are the sum over completed steps plus exactly what late failures added |
| PipelineHistory.RunKeepsOutputs | src/api/services/dynamic_pipeline.py:327-337 | without late failures later steps read exactly what completed steps wrote |
| PipelineHistory.RunIsBounded | src/api/services/pipeline_graph.py:53-65 | executions are bounded by the fuel, and the node count is three per execution and two |
| PipelineHistory.RunFitsRecursionLimit | src/api/services/pipeline_graph.py:26-28 | at most 24 executions and 75 node visits, below the limit of 76 |
| PipelineHistory.BoundIsReached | src/api/services/pipeline_graph.py:26-28 | some run executes 24 steps |
| PipelineTurns.SelectIff | src/api/services/dynamic_pipeline.py:251-258 | a step is found if and only if one of the first eight is pending from here on and the run is not cancelled; it is the first |
| PipelineTurns.RevisionIff | src/api/services/dynamic_pipeline.py:911-945 | a revision is accepted if and only if its answer coerces to a plan that leaves completed steps alone; the new plan has their results and every other step fresh |
| PipelineTurns.DriveIsARun | src/api/services/dynamic_pipeline.py:205-218 | every run is a sequence of turns: each executes the first pending step while nothing is cancelled, asks for a revision if and only if that step was the reviewer's or failed and fewer than two were made, and goes on at the first pending step of a revised plan or at the next one |
| PipelineTurns.CancelledTurnsExecuteNothing | src/api/services/dynamic_pipeline.py:251-258 | no step is executed at a turn that saw the run cancelled |
| PipelineTurns.RunEndsDoneOrCancelled | src/api/services/dynamic_pipeline.py:205-258 | a run ends cancelled, seen at its last turn before a pending step, or with no step pending anywhere |
| PipelineRecovery.RestoreSyncs | src/api/services/dynamic_pipeline.py:630-673 | what a resume restores agrees with the durable plan and checkpoints |
| PipelineRecovery.MovesKeepInv | src/storage/repositories/run_repository.py:34-44 | every durable write, crash, expiry, resume and cancel keeps checkpoints and plan in agreement |
| PipelineRecovery.SavedOutputsPersist | src/storage/repositories/job_repository.py:420-464 | a saved non-empty output is never lost or changed while the run can go on |
| PipelineRecovery.SavedStepsNeverRunAgain | src/api/services/dynamic_pipeline.py:220-249 | a step with a saved output is never started again, and later steps read exactly the saved text |
| PipelineRecovery.TotalsAreSaved | src/api/services/dynamic_pipeline.py:244-249 | in every run the tokens counted by the attempt that owns it are those of its completed steps, saved ones as they were saved |
| PipelineRecovery.SavedOutputsStayLabelled | src/api/services/dynamic_pipeline.py:339-371 | every saved output sits at the step of its name in the durable plan |
| PipelineRecovery.LabelledIff | src/api/services/dynamic_pipeline.py:630-673 | over all runs the checkpoints of a text keep their steps if and only if the text is not empty |
| PipelineRecovery.EmptyAnswerMayBeRelabelled | src/api/services/dynamic_pipeline.py:630-673 | a run after which an empty checkpoint carries the name of an agent the plan no longer has |
| PipelineResumes.FencedOutWritesNothing | src/storage/repositories/run_repository.py:34-44 | an attempt that does not own the running run under a live lease writes nothing to it, but for taking a run nobody owns and clearing after its own completion |
| PipelineResumes.EachInItsPlace | src/api/services/dynamic_pipeline.py:220-439 | each move of an attempt comes from its own place in the loop, and needs the fence |
| PipelineResumes.RunStatusIff | src/storage/repositories/run_repository.py:200-342 | each status of a run, and exactly the moves that set it; a run completes only when no step is pending |
| PipelineResumes.LeaseIff | src/storage/repositories/run_repository.py:344-427 | exactly the moves that give, keep and end the lease |
| PipelineResumes.RecordsIff | src/api/services/dynamic_pipeline.py:339-428 | what the durable plan, the revision count and the checkpoints are after every move |
| PipelineResumes.RestoredIff | src/api/services/dynamic_pipeline.py:630-673 | a step comes back completed if and only if its checkpoint carries its agent and some output, with output and usage as saved |
| PipelineResumes.ResumeGoesOn | src/api/routes/agent.py:178-191 | a failed run with a plan can be resumed and taken over, and the new attempt starts exactly the first step without a saved output, or completes the run if there is none |
| PipelineResumes.AnsweredStepIsSaved | src/api/services/dynamic_pipeline.py:311-390 | an owner whose step is answered can save it, and then exactly that checkpoint is in the row |
| EventStream.AppendKeepsLog | src/storage/repositories/run_repository.py:270-342 | only the last event of a log is terminal, superseded failures aside |
| EventStream.StreamPage | src/api/routes/agent.py:264-278 | the page loop is the function of the page whose frames and end EventDelivery pins |
| EventStream.PageCovers | src/api/routes/agent.py:265-278 | a page sends exactly what it consumed, minus superseded failures |
| EventStream.PipelineStream.Receive | frontend/src/composables/usePipelineStream.ts:235-259 | cursor, duplicate and terminal handling; heartbeats leave the cursor alone |
| EventStream.PipelineStream.ReceiveActivity | frontend/src/composables/usePipelineStream.ts:242-249 | activity resets the retry count |
| EventStream.PipelineStream.ScheduleReconnect | frontend/src/composables/usePipelineStream.ts:187-215 | retries up to the limit, then gives up |
| EventStream.PipelineStream.DoOpen | frontend/src/composables/usePipelineStream.ts:217-226 | a terminal stream does not reopen |
| EventStream.PipelineStream.DoClose | frontend/src/composables/usePipelineStream.ts:165-174 | closing drops source and timer |
| EventStream.PipelineStream.RetryTimer | frontend/src/composables/usePipelineStream.ts:211-214 | the timer opens once |
| EventStream.PipelineStream.Prepare | frontend/src/composables/usePipelineStream.ts:367-375 | attaches with a cursor that is not negative |
| EventStream.PipelineStream.Resume | frontend/src/composables/usePipelineStream.ts:382-392 | reopens with the cursor kept |
| EventStream.MovesKeepInv | src/api/routes/agent.py:248-288 | appends, pages, deliveries, breaks and reconnects keep the delivery invariant |
| EventStream.Delivered | frontend/src/composables/usePipelineStream.ts:228-259 | the applied events are, strictly ordered and once each, the log up to the cursor minus superseded failures |
| EventStream.QuietMeansComplete | src/api/routes/agent.py:257-288 | nothing is held back once the server has read the log and the wire is empty |
| EventDelivery.PageStops | src/api/routes/agent.py:264-288 | a page stops at event n if and only if n is the first ending after which no run_resumed is seen, in the page or read afresh |
| EventDelivery.PageSends | src/api/routes/agent.py:264-278 | up to there it sends every event in order but exactly the endings after which a run_resumed is seen |
| EventDelivery.HistoryIsSuperseded | src/api/routes/agent.py:267-276 | on a log those are exactly the superseded failures whose resume is visible |
| EventDelivery.ServedIff | src/api/routes/agent.py:264-278 | in any reachable state the next event is sent if and only if it is not superseded by now, and ends the stream if and only if it is an ending that stands |
| EventDelivery.NothingSupersededArrives | src/api/routes/agent.py:264-278 | over all runs no event the client applied was superseded when it was served |
| EventDelivery.FinishedByStandingEnding | frontend/src/composables/usePipelineStream.ts:228-259 | over all runs a client has finished only after an ending that stood when it was served |
| EventDelivery.AppendIff | src/storage/repositories/run_repository.py:162-342 | what may be appended while a run is running or failed, and the status it leaves |
| EventDelivery.HearsIff | frontend/src/composables/usePipelineStream.ts:228-259 | a frame is applied if and only if the client listens and has not seen it; what it does to cursor, retry count, state and source |
| EventDelivery.LosesIff | frontend/src/composables/usePipelineStream.ts:187-215 | a lost connection costs one retry, and the client gives up if and only if none is left |
| EventDelivery.OpensIff | frontend/src/composables/usePipelineStream.ts:211-226 | what a retry and a resume open, and where they start |
| EventDelivery.SurvivesIff | frontend/src/composables/usePipelineStream.ts:187-226 | without activity a client survives exactly as many losses as it has retries |
| TokenBatcher.Batcher.AddDelta | src/api/services/dynamic_pipeline.py:137-149 | the buffered state after a delta, flushed when due, and whether the write raised |
| TokenBatcher.Batcher.DoFlush | src/api/services/dynamic_pipeline.py:151-158 | one token event with everything held back, if the write lands, raising or not; the buffer is empty either way |
| TokenBatcher.NothingLostIff | src/api/services/dynamic_pipeline.py:119-158 | log plus held-back text shows what writing every delta at once would show, if and only if every write that was due was tried and landed |
| TokenBatcher.NothingPendingAtNotice | src/api/services/dynamic_pipeline.py:282-300 | no text is pending when another event of the step is written, and the log alone is complete if and only if everything landed |
| TokenBatcher.HeldBriefly | src/api/services/dynamic_pipeline.py:137-149 | held-back text is below the size limit, inside an interval, never the first |
| TokenBatcher.HoldsBackIff | src/api/services/dynamic_pipeline.py:137-158 | a delta is held back if and only if there is an interval, it is not the first, and neither size nor time is up; else everything held goes out with it as one event |
| TokenBatcher.RaisesIff | src/api/services/dynamic_pipeline.py:137-158 | a call raises if and only if it tries a write that does not go through |
| SseParser.SseReader.Receive | frontend/src/api/sse.ts:19-28 | one chunk: normalise the buffer, emit every complete block |
| SseParser.ReadSseStream | frontend/src/api/sse.ts:14-58 | the reading loop emits the specified frames |
| SseParser.IncrementalIsBatchOfSeen | frontend/src/api/sse.ts:14-58 | chunk-by-chunk reading equals one parse of the text the framer saw |
| SseParser.SeenTextLength | frontend/src/api/sse.ts:19-20 | each cut CR LF pair costs exactly one extra line end |
| SseParser.SeenTextIsBodyIff | frontend/src/api/sse.ts:19-20 | the framer sees the body if and only if no CR LF pair is cut |
| SseParser.ChunkingIsInvisible | frontend/src/api/sse.ts:9-28 | without a cut pair every chunking gives the frames of the whole body |
| SseParser.LfBodyHasNoCuts | frontend/src/api/sse.ts:19-20 | a body without CR can be cut anywhere |
| SseBlocks.LinesIff | frontend/src/api/sse.ts:31-34 | a block splits into lines in exactly one way |
| SseBlocks.EmitReads | frontend/src/api/sse.ts:31-44 | what a block emits, read off its text: nothing without a data line, else one frame with the last event name and the data values in order |
| SseBlocks.LineEndsRead | frontend/src/api/sse.ts:19-20 | CR LF, a lone CR and LF each end one line; all other text stays |
| SseCuts.EdgeIsInvisible | frontend/src/api/sse.ts:9-28 | a chunk edge that cuts no CR LF pair never shows, wherever it is |
| SseCuts.CutPairShowsIff | frontend/src/api/sse.ts:19-28 | a cut pair changes the frames if and only if the extra line end splits a block whose halves emit something else than it does |
| SseCuts.HalvesEmitAlikeIff | frontend/src/api/sse.ts:31-44 | two halves of a block emit what they emit joined if and only if at most one holds data, under the event name of the whole |
| SseChunking.ChunksReadPieces | frontend/src/api/sse.ts:14-58 | read in chunks, a body gives the frames of the pieces between its cut pairs, each read alone |
| SseChunking.ChunkingShowsIff | frontend/src/api/sse.ts:9-28 | however it is cut, a body gives the frames of the whole if and only if every block emits what its pieces emit apart |
| SseChunking.EmitsAlikeIff | frontend/src/api/sse.ts:31-44 | any number of pieces emit apart what their block does if and only if at most one holds data, under the event name of the block |
| SseRoundTrip.ServerFramesArrive | src/api/routes/agent.py:416-425 | what the server writes arrives in order, comments dropped, however it is cut |
| SseRoundTrip.JsonPayloadSendable | src/api/routes/agent.py:425-425 | printed JSON is one line whatever its strings hold |
| SseRoundTrip.CutPairSplitsFrame | frontend/src/api/sse.ts:19-20 | for every two data lines, a cut CR LF turns one frame into two |
| SseRoundTrip.HarmlessCut | frontend/src/api/sse.ts:19-20 | for every line, cutting the pair of the blank line after it changes nothing |
| RunEventHub.PassesOnIff | src/api/services/run_event_hub.py:109-172 | a notification or a catch-up is passed on to exactly the streams of its run |
| RunEventHub.ReadsAPage | src/api/routes/agent.py:257-288 | a stream reads at most a page of 100 and waits if and only if that was all |
| RunEventHub.NotifiedIff | src/storage/repositories/run_repository.py:46-57 | a commit is notified if and only if a live connection listens |
| RunEventHub.StreamAfter | src/api/routes/agent.py:248-288 | every stream after every move: its place, its wake flag, and what it has read |
| RunEventHub.ListenerAfter | src/api/services/run_event_hub.py:121-184 | phase, health, connection and pending wake-ups of the listener after every move |
| RunEventHub.CommitIsRead | src/api/services/run_event_hub.py:98-127 | with the connection alive a commit leads a sleeping stream back to the table, where it reads the event, and to sleep again |
| RunEventHub.MovesKeepInv | src/api/services/run_event_hub.py:77-184 | every step of writers, streams and listener keeps the wake-up invariant |
| RunEventHub.NoLostWakeup | src/api/services/run_event_hub.py:109-127 | while connected, an unread event has its notification queued, a wake set, or the stream about to look |
| RunEventHub.WaitingMeansCaughtUp | src/api/routes/agent.py:257-288 | a stream waits only after reading everything committed |
| RunEventHub.CommitReachesSleeperIff | src/api/services/run_event_hub.py:71-75 | while the hub says healthy, a commit sends a sleeping stream of its run back to the table if and only if the connection is alive |
| RunEventHub.SleepsOn | src/api/routes/agent.py:257-288 | without the connection the stream sleeps on until its own poll, its end, or the listener noticing |
| RunEventHub.FlagOutlivesLink | src/api/services/run_event_hub.py:66-75 | a reachable state that says healthy with a lost connection and an unread event |
| JobLeases.BackoffMonotone | src/jobs/runner.py:339-349 | the delay grows with the attempt and is capped |
| JobLeases.MovesKeepFence | src/storage/repositories/job_repository.py:216-397 | a lease once taken away is never held again, and the owner at work made the last start |
| JobLeases.OnlyTheOwnerEndsAttempt | src/jobs/runner.py:253-287 | only the delivery that started the attempt and owns the live lease ends it |
| JobLeases.FinalStatusStays | src/storage/repositories/job_repository.py:95-177 | cancelled and completed are final |
| JobLeases.FencedWorkersNeverWrite | src/jobs/runner.py:161-293 | after a reclaim or cancel the old worker changes nothing, over all runs |
| JobLeases.RetryIsEarned | src/jobs/runner.py:352-446 | a retry needs a transient error within the budget, and is recorded for the time after its delay |
| JobLeases.GateWaitsForRetry | src/jobs/runner.py:166-177 | a delivery of a failed job passes the status gate if and only if its retry is due |
| JobLeases.StartUsesBudgetIff | src/jobs/runner.py:197-200 | a start raises the count if and only if it read at least what the row has, lowers it if and only if it read less than the count before, and keeps the account of what was given back |
| JobLeases.RetriesWithinBudget | src/jobs/runner.py:352-446 | in every run retries are at most maxRetries - 1 plus what stale starts gave back |
| JobLeases.RetriesAreBounded | src/jobs/runner.py:352-446 | with current counts at most maxRetries - 1 retries are scheduled |
| JobLeases.DuplicatesBreakBound | src/jobs/runner.py:197-200 | with stale starts any number of retries of one counted attempt is reachable |
| JobLeases.StaleStartLowersCount | src/jobs/runner.py:197-200 | a reachable start that takes the count from 2 to 1 |
| JobLeases.ReclaimIsFree | src/jobs/reaper.py:8-10 | the reclaim itself changes neither count nor retries |
| JobLeases.EvictionsAreCharged | src/jobs/reaper.py:8-10 | in every run a transient error is retried if and only if ended and evicted attempts, less those given back, are within the budget |
| JobLeases.EvictionsUseUpBudget | src/jobs/reaper.py:8-10 | after n reachable evictions and no error, the first transient error is final if and only if n + 1 reaches maxRetries |
| JobLeases.LostIff | src/jobs/reaper.py:144-173 | a reclaimed queued job that is on its way stops being so by exactly the named moves |
| JobLeases.RedeliveredIff | src/jobs/reaper.py:144-173 | along a run it is always on its way if and only if none of those moves is made |
| JobLeases.StrandedStays | src/jobs/reaper.py:144-173 | a stranded job stays stranded under every move but a delivery from outside and a cancel |
| JobLeases.OneReaperStrandsJob | src/jobs/reaper.py:157-165 | a reachable job that nothing will ever run, with one reaper |
| JobLeases.PermanentFailureIsFinalIff | src/jobs/runner.py:166-177 | a permanent failure can run again if and only if a delivery is past the status gate with the lease to take or its own |
| JobLeases.DuplicateRevivesFailure | src/jobs/runner.py:166-202 | a reachable permanent failure that a duplicate starts again without using budget |
| JobLeases.TwoReapersStrandJob | src/jobs/reaper.py:157-165 | the same with two reapers and no delivery lost: a late acknowledgement clears a newer mark |
| JobOutcomes.StatusIff | src/jobs/runner.py:197-287 | each status of a job, and exactly the moves that set it: completed by the success of the owner of the live lease of a running job, failed by its failure |
| JobOutcomes.GateIff | src/jobs/runner.py:166-177 | a delivery passes the status gate if and only if the job is queued, or failed with a retry that is due |
| JobOutcomes.LeaseIff | src/storage/repositories/job_repository.py:216-397 | exactly the moves that take, keep up, give up and take away the lease, with their values |
| JobOutcomes.RetryMarkIff | src/jobs/runner.py:352-440 | the time of the next retry after every move: a retry is recorded if and only if the error is transient and the count is below the limit |
| JobOutcomes.BackoffDoubles | src/jobs/runner.py:339-349 | the delay starts at the base and doubles up to the cap |
| JobOutcomes.OutcomeIff | src/jobs/runner.py:269-287 | in every run a job is completed if and only if the owner of its live lease reported success while it ran, and cancelled if and only if a cancel reached it before it had ended |
| JobOutcomes.BeatingKeepsJob | src/jobs/runner.py:296-331 | in every run, while the owner beats within every lease and neither reports nor is cancelled, the job stays its own: it never lapses and nobody else gets its lease |
| Capabilities.GrantedIff | src/api/services/tool_policy.py:77-146 | a write is granted if and only if a validated confirmation and an unused, unexpired capability cover this very call; granting uses it up |
| Capabilities.ApprovalRequiredIff | src/api/services/tool_policy.py:114-115 | exactly when the gate asks for approval instead of denying |
| Capabilities.ConsumeAdvances | src/storage/repositories/action_repository.py:157-210 | consuming changes one row, and only a confirmed, unexpired, matching one counts |
| Capabilities.MovesAdvance | src/storage/repositories/action_repository.py:30-255 | every move takes every row at most one step along its life |
| Capabilities.MovesKeepInv | src/api/services/chat_agent.py:442-488 | turns, confirmations, calls, cancels and crashes keep the capability invariant |
| Capabilities.RowsKeptAlong | src/storage/repositories/action_repository.py:125-210 | a row is never rewritten into another call and never used twice |
| Capabilities.WritesAreConfirmedProposals | src/api/services/chat_agent.py:476-488 | every write ran with arguments meaning what its stored proposal meant, after confirmation and before expiry |
| Capabilities.OneInvocationPerAction | src/api/services/chat_agent.py:708-740 | each action pays for at most one invocation |
| Capabilities.DoubleConfirmIssuesOnce | src/api/services/intent_recognizer.py:410-450 | concurrent confirmations of one proposal issue one capability |
| CapabilityLives.RowAfter | src/storage/repositories/action_repository.py:125-255 | every row, and exactly what each move makes of it: confirmed or expired, used up or expired, cancelled, swept |
| CapabilityLives.RowBorn | src/storage/repositories/action_repository.py:30-71 | rows are born as proposals only, of writes that ask for approval or schedules about to be confirmed, with their expiry |
| CapabilityLives.ClearedIff | src/api/services/tool_policy.py:77-146 | a requested call is cleared if and only if it is a registered read, or a write whose approved capability is there; what the turn then holds |
| CapabilityLives.ChosenRow | src/api/services/intent_recognizer.py:410-450 | which row a confirmation goes to: the one pointed at if it belongs to the thread, else the newest one waiting; and only if it means the same call |
| CapabilityLives.ConfirmedProposalRuns | src/api/services/chat_agent.py:442-488 | a proposal confirmed in time lets its call run, with any arguments of the same meaning, and is then used up |
| Idempotency.ConflictIff | src/storage/repositories/idempotency_repository.py:98-109 | a reused key is refused if and only if the earlier request stands and meant something else |
| Idempotency.MovesKeepInv | src/utils/idempotency.py:103-144 | claims, writes, raises before and after taking effect, completions, releases and crashes keep the ledger invariant and its account of effects |
| Idempotency.WrittenAtMostOnce | src/utils/idempotency.py:103-144 | a key's write returns at most once, over all interleavings |
| Idempotency.EffectAtMostOnce | src/utils/idempotency.py:103-144 | over all interleavings a key's write takes effect once for every release after an effect, and at most once more; so at most once without such a release |
| Idempotency.OnlyLeaksReopen | src/utils/idempotency.py:137-142 | an effect that has happened becomes repeatable by a release after an effect, and by no other move |
| Idempotency.SecondEffectIff | src/utils/idempotency.py:137-142 | an effect that has happened can happen again without another such release if and only if the key is open or pursued, which takes such a release |
| Idempotency.AnswersAgree | src/utils/idempotency.py:128-144 | any two answers under a key are equal and answer requests of the same meaning |
| Idempotency.EntryKeyInjective | src/utils/idempotency.py:92-100 | entry keys determine batch and position, even when the batch key has colons |
| Idempotency.OneRowPerEntry | src/api/services/chat_tools.py:428-442 | the write of each position of a plan takes effect at most once unless its key is given back after an effect, and no two positions share a key |
| KeyedReplays.ClaimIff | src/storage/repositories/idempotency_repository.py:25-146 | how a claim is answered, each answer if and only if its case, up to the meaning of the arguments |
| KeyedReplays.WritesInProgressOnly | src/storage/repositories/idempotency_repository.py:148-210 | completing a key and giving it back write to a row in progress and to no other |
| KeyedReplays.RowAfter | src/storage/repositories/idempotency_repository.py:148-210 | the row of every key after every move: claimed, completed with the result of its write, given back, or as it was |
| KeyedReplays.RequestAfter | src/utils/idempotency.py:103-144 | how a request goes on after each of its moves, with and without a key |
| KeyedReplays.CompletedIsReplayed | src/utils/idempotency.py:128-144 | over all interleavings, after a completed write every later request of its key and meaning gets its result and writes nothing; one of another meaning is refused |
| PublicationRequest.Desk.CreateAndEnqueue | src/api/routes/publish.py:102-128 | exactly when the keyed write raises, and that its row stays behind whenever it was persisted, with its status |
| PublicationRequest.Desk.CreateAndEnqueueJob | src/jobs/queue.py:25-53 | refusal at capacity, and what becomes of the job row |
| PublicationRequest.RetryDuplicatesIff | src/api/routes/publish.py:130-140 | a failed request sent again under its key makes a second publication if and only if the first was persisted before the failure |
| PublicationRequest.FullQueueDuplicates | src/api/routes/publish.py:116-127 | at capacity every valid request fails after its row is persisted, and its retry makes a second |
| ScheduleCommit.EntryTextInjective | src/api/services/chat_tools.py:436-440 | the arguments of an entry determine the entry |
| ScheduleCommit.Calendar.SaveOnce | src/utils/idempotency.py:103-144 | the keyed write of one row, to the row, the key's status and the answer: replay, refusal, errors before and after the row has landed, death |
| ScheduleCommit.Calendar.RepeatsIff | src/utils/idempotency.py:137-142 | a write under a free key repeats a row if and only if the key was given back after its row had landed |
| ScheduleCommit.Calendar.RaisesThenRetries | src/storage/repositories/calendar_repository.py:45-57 | an error after the commit and a retry leave two rows under one key |
| ScheduleCommit.Calendar.SaveUnkeyed | src/utils/idempotency.py:125-126 | without a key every call writes |
| ScheduleCommit.Calendar.CommitItem | src/api/services/chat_tools.py:413-450 | one item: skipped, raised, or saved under its own key |
| ScheduleCommit.Calendar.Commit | src/api/services/chat_tools.py:404-451 | a commit keeps all rows, adds only under free keys, gives every valid entry its row when it finishes, exactly one if its key was never given back with a row, and when it must finish |
| McpPublish.VerdictsAsDocumented | src/jobs/error_classifier.py:20-36 | the documented classes, and exactly when integrity, permission and business errors are not permanent after all |
| McpPublish.CallTool | src/integrations/mcp_client.py:62-86 | the call with its dispatched flag comes to the specified outcome |
| McpPublish.FallbackAfterDispatch | src/integrations/mcp_client.py:160-169 | after dispatch a publish falls back only when declined or answered with an odd status |
| McpPublish.PostedAtMostOnceIff | src/integrations/mcp_client.py:62-86 | one call posts at most once whatever the servers did, if and only if the answer had no odd status or REST could not act |
| McpPublish.UnknownIsNeverRetried | src/jobs/error_classifier.py:40-44 | lost or unreadable answers end in an error that no attempt count retries |
| McpPublish.Publication.Execute | src/api/services/publish_service.py:108-207 | one attempt, write by write, comes to the specified end, status and ledger row, whichever write raises or dies |
| McpPublish.ClosedStaysClosed | src/api/services/publish_service.py:113-130 | a finished publication, or one whose row is claimed or completed, makes no call and stays as it is |
| McpPublish.SafeIffNotLeaky | src/utils/idempotency.py:165-181 | an attempt on an open publication cannot post twice, or post and be repeatable, if and only if it does not leak |
| McpPublish.RepliesThatLeak | src/integrations/mcp_client.py:233-278 | with a working database the replies after which an attempt leaks, exactly |
| McpPublish.JobPostsAtMostOnce | src/jobs/error_classifier.py:135-140 | over all retries, restarts included, a publication without leaks is posted at most once, from any status and row |
| McpPublish.LeakPostsTwice | src/jobs/error_classifier.py:135-140 | every leak posts twice with one more attempt that goes well |
| McpPublish.SecondPostIff | src/api/services/publish_service.py:118-130 | a second post is possible after an attempt, through later ones that do not leak, if and only if it leaks |
| McpOutcomes.AskedIff | src/integrations/mcp_client.py:62-86 | which servers a call asks, exactly: REST after a failed handshake or an unusable answer, but not for a publish that may have acted |
| McpOutcomes.SucceedsIff | src/integrations/mcp_client.py:62-86 | a call succeeds if and only if the MCP tool did, or REST was asked and did |
| McpOutcomes.ErrorIff | src/integrations/mcp_client.py:62-278 | the error of every call that fails, reply by reply |
| McpOutcomes.DeclinedIff | src/integrations/mcp_client.py:160-169 | a declining answer is an unusable one that leaves no doubt, odd statuses aside |
| McpOutcomes.RetriedIff | src/jobs/error_classifier.py:19-140 | an error is retried if and only if attempts are left and it is transient, by class, status, network and words |
| McpOutcomes.CallErrorsRetried | src/jobs/error_classifier.py:19-140 | which of the errors a call ends with are worth another attempt |
| McpOutcomes.CalledIff | src/api/services/publish_service.py:113-145 | an attempt calls the tool if and only if the publication is open and claim and start go through |
| McpOutcomes.AttemptLeaves | src/api/services/publish_service.py:145-207 | the status and the ledger row after an attempt that made its call, whichever write failed |
| McpOutcomes.AttemptEnds | src/api/services/publish_service.py:145-207 | how such an attempt ends: the last error raised, or death |
| McpOutcomes.UncalledLeaves | src/utils/idempotency.py:147-181 | what an attempt that makes no call leaves and how it ends |
| McpOutcomes.UndisturbedAttempt | src/api/services/publish_service.py:108-207 | with nothing wrong on this side, success finishes the publication and failure reopens it |
| PromptCache.RefreshRaisesIff | src/storage/file_memory.py:194-224 | a refresh raises the epoch of exactly the threads it is for |
| PromptCache.HighestEpoch | src/storage/file_memory.py:205-205 | the highest epoch recorded for anyone |
| PromptCache.EpochFile.BumpSnapshotEpoch | src/storage/file_memory.py:194-213 | the new epoch is above every recorded one and not before the clock |
| PromptCache.KeysIff | src/api/services/chat_agent.py:880-880 | two chats share a cache entry if and only if they are one user's and one thread, or both anonymous |
| PromptCache.EpochIsLatest | src/storage/file_memory.py:215-223 | the epoch of a thread is the later of the last refresh of everyone and of its own |
| PromptCache.ServesIff | src/api/services/chat_agent.py:883-886 | an entry serves if and only if its stamp, where it has one, is of today and not older than the epoch |
| PromptCache.StoreOk | src/api/services/chat_agent.py:887-895 | storing, with eviction of the oldest, keeps equal keys and at most 512 entries, and serves what was stored |
| PromptCache.ForgetOk | src/api/services/chat_agent.py:906-908 | dropping keeps the maps in agreement |
| PromptCache.StoreCosts | src/api/services/chat_agent.py:887-895 | a new prompt in a full cache costs exactly the oldest entry |
| PromptCache.ForgetTakes | src/api/services/chat_agent.py:905-908 | dropping takes exactly the user's entries, all or one thread's |
| PromptCache.FrozenPrompts.Serve | src/api/services/chat_agent.py:871-895 | a cached prompt is served only for today and a current epoch, else the new one is stored |
| PromptCache.FrozenPrompts.Drop | src/api/services/chat_agent.py:897-908 | the loop drops exactly the user's chosen prompts from both maps |
| PromptCache.AloneIsServe | src/api/services/chat_agent.py:871-895 | the steps of a call, with nothing in between, are the method Serve |
| PromptCache.MovesKeepInv | src/api/services/chat_agent.py:871-910 | every read, write, pop, bump and restart of many processes and their worker threads keeps the freshness invariant |
| PromptCache.ExposedIff | src/api/services/chat_agent.py:905-908 | a prompt comes to lack its stamp if and only if a drop takes the stamp out beside a prompt cached or just read |
| PromptCache.PromptsAreFresh | src/api/services/chat_agent.py:883-887 | every prompt served was built from a snapshot read after every refresh of its thread over when the call began, unless it was found without a stamp after a torn drop; at most 512 are cached |
| PromptCache.StaleIffExposed | src/api/services/chat_agent.py:885-886 | between calls a stale prompt can follow without another torn drop if and only if a prompt lacks its stamp now |
| PromptCache.TornDropExposes | src/api/routes/memory.py:139-152 | every process and thread can get into that state |
| PromptCache.TornReadServesStale | src/api/services/chat_agent.py:883-886 | a run in which a drop between the two reads of a call makes it stale by itself |
| PromptCache.EmptyThreadRefreshesNobody | src/storage/file_memory.py:215-224 | a refresh naming the empty thread raises no epoch and drops no prompt |
| Scheduler.Candidates | src/api/services/chat_tools.py:344-355 | exactly the allowed days of the range, ascending; raises past the last day |
| Scheduler.NextFree | src/api/services/chat_tools.py:364-370 | one turn of the shared iterator: the next day on which the platform is free |
| Scheduler.Missing | src/api/services/chat_tools.py:328-335 | the contents found, and exactly the ids that are not |
| Scheduler.Assign | src/api/services/chat_tools.py:360-390 | the assignment loop follows the greedy specification |
| Scheduler.Propose | src/api/services/chat_tools.py:307-390 | which error when, and otherwise a greedy plan of the found contents |
| Scheduler.GreedyIsUnique | src/api/services/chat_tools.py:360-390 | the specification leaves no choice |
| Scheduler.DatesAdvance | src/api/services/chat_tools.py:360-390 | dates strictly increase, and after an item without a date none has one |
| Scheduler.NothingCollides | src/api/services/chat_tools.py:357-371 | dates are in range, allowed, free in the calendar and distinct |
| Scheduler.CandidateSuits | src/api/services/chat_tools.py:344-355 | a candidate is a day of the range, both ends included, on a weekday the cadence names, counted from the Monday the calendar starts with |
| Scheduler.SlotsNameContents | src/api/services/chat_tools.py:360-371 | each slot names the content of its place, and its type as the platform, or "unknown" |
| Scheduler.GreedyIsEarliest | src/api/services/chat_tools.py:360-390 | whatever can be dated in order at all is dated by the plan, and no later |
| RateLimit.Limiter.CheckRateLimit | src/storage/account_store.py:103-123 | the decision and the rows after upsert and sweep |
| RateLimit.SweepIsInvisible | src/storage/account_store.py:119-121 | with windows that end no later than the sweep could reach them (a day, in whole seconds) it changes no decision, over all traces |
| RateLimit.WindowsStartApart | src/storage/account_store.py:106-115 | two windows of a key start at least a window length apart |
| RateLimit.SweepShowsBeyondADay | src/storage/account_store.py:119-121 | with any longer window some trace shows the sweep |
| RateLimit.IntervalAdmitsFewerThanTwoLimits | src/storage/account_store.py:103-123 | no interval as long as the window admits more than 2 * limit - 1 requests of a key |
| RateLimit.NothingBelowOne | src/storage/account_store.py:123-123 | a limit below one admits nothing |
| RateLimit.BoundIsAttained | src/storage/account_store.py:103-123 | every limit and every window of two microseconds or more has a trace that admits 2 * limit - 1 |

## Left out

- JSON numbers with a fraction or exponent, and unpaired surrogates, are not values of the model; cost estimates are exact reals.
- Idempotency.AnswersAgree: results are JSON values that survive the ledger's own serialisation; `default=str` is not modelled.
- ScheduleCommit.Calendar.Commit: models a commit under a request key; without one each item goes through SaveUnkeyed, and the surrounding loop is the same.
- Capabilities.MovesKeepInv: the eight-round limit of the tool loop and the failure counters are not modelled; a turn may ask for any number of calls, which only adds behaviours.
- EventStream.Delivered: delivery is a safety property; delays, timers, the workspace session reset and the parsing of the Last-Event-ID header are not modelled.
- PipelineRecovery.MovesKeepInv: an event write that raises counts as a crash there; the in-memory branch for it is modelled in PipelineHistory only.
- JobLeases.MovesKeepFence: unguarded progress updates of a running job are not modelled; only status, lease, attempts and retry time are.
- McpPublish.Publication.Execute: two deliveries of one job at a time are covered by the ledger alone (Idempotency.EffectAtMostOnce); the reads before the claim are not split off.
- McpPublish.CallTool: message texts are reduced to the words the classifier looks for; whether a platform deduplicates on the request id is outside.
- PromptCache.PromptsAreFresh: an epoch file that cannot be read, which the code takes for empty, is not modelled; prompt texts are identified by the moment of their snapshot.
- Scheduler.Propose: reading dates, lower-casing the cadence and converting ids are done before; dates are ordinals.
- SQL, sessions and migrations; language model, HTTP and Redis clients; LangChain and LangGraph internals; prompt texts.
- Decoding bytes to text in the browser; the framer starts from text.
- Regex intent rules, title derivation, web search and content parsing: heuristics without a crisp specification.
- The text edits and limits of the memory files, tenancy, authentication, metrics, logging, media, CSV import, views.
- The default plan, the choice of the final output, and the context compressor: easy members only.
