# Canto in Dafny

Canto is a local runtime that plans work, has it approved, runs it, reviews the result and applies it. This project
models the state machines and graph algorithms at its core and the store they share, and proves what they are for:

- `Capabilities`, `Orchestration`, `PlanExecution`: the depth-first planner over "who produces what I need", and the
  executor that replays its plan. A returned plan is a topological order of exactly what the target reaches; a cycle
  error means a cycle; a prepared plan never runs out of artifacts.
- `Jobs`: the job service as interleaved store accesses of any number of callers. At most one start and one decision,
  one success per idempotency key, replays of final artifacts only.
- `StateStore`: the store's operations as atomic steps, the locked in-memory store that performs them, and the Redis
  store, whose optimistic retry loops are interleaved command by command and shown linearizable.
- `Delegation`, `Promotion`, `PromotionLifecycle`, `PromotionQueue`, `Paths`: the life of a delegated task, and the
  promotion of accepted patches into one working tree, alone and through the queue. `PromotionHistory` runs all of
  them together from new drafts on; `RevisedPromotion` follows two such histories.
- `Crawler`: the site crawler's loop, with exact shortest distances, coverage and termination.
- `Catalog`, `CatalogSteps`, `Selection`, `Launch`, `ApiWorker`: the model catalogue and its probes, first call by call
  and then interleaved between any two store accesses, policy composition and choice of a model, the fallback loop, and
  the budgeted conversation whose history is translated into alternating turns.
- `Memory`, `MemoryIndex`, `Recall`: memory items and their approvals under interleaving, the index tables kept in step
  with the items, budgeted recall and the limits on automatic activation.
- `Package`, `Transformations`, `SharedTransformations`: the checksum file's printer and parser with the package round
  trip, and writes to dotted paths, on copies and on Python's shared objects.
- `Ordering`, `Wrappers`: Python's string order with `sorted` and `min`, optional values and results.

Objects whose methods update their fields are classes with the same methods; each method is proved against a function
of its inputs or of the old state, and the laws are lemmas about these functions. Concurrent services are state
machines with an explicit place for every caller. What comes from outside (Git, HTTP, the clock, tools, providers) is a
parameter: a function of everything seen so far, or a choice made at each step.

Some results say where the code falls short of what one may expect of it:

- `PromotionQueue.QueueGuardIsExact`: a queue entry keeps the file list of the revision it was made for. After a failed
  promotion, a revision and a new acceptance, the overlap check still uses that list; the promoted patch is clear of
  every possible neighbour exactly when the old list covers the accepted files.
  `RevisedPromotion.RevisedResultSlipsThrough` is a history, from new drafts on, in which it does not.
- `Promotion.RollbackRestores`: when `git apply` itself fails, the tree is untouched, but reversing the patch fails too,
  so the rollback is recorded as failed and this revision is not promoted again; the task needs a new one.
- `RevisedPromotion.TwoRevisionsInTheTree`: a patch that a failed rollback left in the tree stays there while the task is
  revised and its next revision promoted on other paths. `Promotion.PromotesAlone`, `OneRevisionByAttempts` and
  `OneRevisionExactly` say exactly when a promoted task has one revision in the tree, `PromotionHistory.OneRevisionInTheTree`
  what its records show of that.
- `CatalogSteps.RefreshOverturnsVerdict`, `RemovalLosesProbedModel`: a refresh that read a model before its probe ended
  writes the old verdict back, and a removal that looked for probes before one was stored deletes the probed model.
  `DisciplineIsExact` says which interleavings are safe.
- `CatalogSteps.VerdictUndoesDiscovery`: a verdict writes the whole model as its probe had read it, so a version that a
  discovery stored meanwhile is lost. `VerdictRestoresListing` says exactly when nothing is.
- `Delegation.RunKeepsSound`: `create_task` takes a draft with revisions that nobody captured; every task stays sound if
  and only if no such draft is created.
- `SharedTransformations.SharingShows`: values are taken over by reference, so a target below an earlier one writes into
  the input page; `SharingIsInvisible` gives a condition under which nothing of that shows.
- `Package.AcceptedButNotExtractable`: a package can be made and validated that cannot be extracted, because one of its
  paths is a directory on the way to another; `OnlyReservedNamesClash` says which directories give one.
- `ApiWorker.HistoryTranslationIsUnique`: an empty prompt, and nothing else, makes an empty turn.
- `Delegation.ExecutorDoneExit`, `StrandedForGood`, `StrandedIsReachable`: after a first result, a relaunch without
  reviewable work leaves a task in `executor_done` for good.
- `Selection.DisjointListsWiden`: disjoint allowlists compose to an empty list, which allows everything.

## Model

| member | source | states |
|---|---|---|
| Capabilities.ResolvedBindingIsUniqueLeast | canto/core/orchestration.py:262-297 | a declared binding resolves exactly when its (skill, provider) is strictly below every other one's; otherwise it is ambiguous |
| Capabilities.Registry.Producer | canto/core/orchestration.py:403-419 | no producer exactly when nothing else installed makes the artifact; else the one of highest score, smallest name |
| Capabilities.Registry.TopologicalIsAcyclic | canto/core/orchestration.py:387-433 | from no node of a topological order does a path of chosen producers come back to itself |
| Orchestration.BestMatchIsBest | canto/core/orchestration.py:339-358 | the planned target is the best positive match, and there is none exactly when no score is positive |
| Orchestration.WorkflowPlanner.AddStep | canto/core/orchestration.py:387-433 | the recursion terminates, keeps the draft topological, adds only what the name reaches with all its producers first, and fails only on a clash or a cycle through the stack |
| Orchestration.PlanTarget | canto/core/orchestration.py:378-442 | success exactly without ambiguity and cycle from the target; the steps are each reachable capability once, producers before consumers, target last, with exact missing inputs and produced artifacts |
| Orchestration.Plan | canto/core/orchestration.py:366-442 | no match gives the empty preview; otherwise the above for the best match |
| PlanExecution.CreatePlan | canto/core/orchestration.py:457-509 | a plan is refused for approval without steps, else for the first step without exactly one installed version or without an executable provider; otherwise a new draft |
| PlanExecution.ExecutionPlan.constructor | canto/core/orchestration.py:486-505 | a plan keeps the steps and lists exactly the missing inputs the caller did not supply |
| PlanExecution.ExecutionPlan.PrepareExecution | canto/core/orchestration.py:635-660 | passes exactly for approved plans with steps and without missing inputs, and then marks them running |
| PlanExecution.ExecutionPlan.Execute | canto/core/orchestration.py:723-793 | the loop ends as the step-by-step run does, and records completion with all artifacts or the first error |
| PlanExecution.PreparedPlanNeverStarves | canto/core/orchestration.py:299-311 | a prepared plan never fails to resolve an artifact, whatever the jobs return; on completion every announced artifact was made |
| PlanExecution.UnsuppliedPlanStarves | canto/core/orchestration.py:299-311 | conversely, one missing input left unsupplied stops every run in which no step returns it undeclared; for want of an artifact if the steps return all they declare |
| Jobs.ActKeepsInv | canto/core/jobs.py:471-674 | every store access of `process_job`, `approve`, `reject` and `create_job` keeps what all callers rely on |
| Jobs.ProviderStartsAtMostOnceAndApproved | canto/core/jobs.py:477-553 | under any interleaving a job's provider starts at most once, and with policy reasons only under an approved approval |
| Jobs.ApprovalDecidedAtMostOnce | canto/core/jobs.py:718-730 | every approval is decided at most once and shows that decision |
| Jobs.KeyHeldByOneCaller | canto/core/jobs.py:555-599 | no two callers hold one idempotency key between claim and release |
| Jobs.KeySucceedsAtMostOnce | canto/core/jobs.py:645-671 | at most one job per key ever finishes its provider successfully, and the claim names it |
| Jobs.ReplayReturnsFinalArtifacts | canto/core/jobs.py:565-594 | a replay has the artifacts of the completed original, which stay final, and never starts the provider |
| Jobs.DecisionsClaimsAndArtifactsLast | canto/core/jobs.py:645-671 | decisions, completed claims with their checksum and final artifacts survive every later access |
| StateStore.MemoryStateStore.TransitionRecord | canto/core/state.py:1136-1142 | the locked compare-and-set does the atomic operation |
| StateStore.MemoryStateStore.ClaimIdempotency | canto/core/state.py:1196-1204 | the locked claim does the atomic operation |
| StateStore.MemoryStateStore.TransitionMemoryApproval | canto/core/state.py:1361-1375 | the locked two-record update does the atomic operation |
| StateStore.MemoryStateStore.DeleteMemoryItem | canto/core/state.py:1333-1335 | deletes the item and says whether it existed |
| StateStore.ExecIsAtomic | canto/core/state.py:817-832 | an `EXEC` that is not aborted does exactly what the atomic operation does at that moment |
| StateStore.RefusalIsAtomic | canto/core/state.py:887-902 | one read value that forbids the write is enough: the atomic operation refuses at that read, with the same reply |
| StateStore.RunIsLinear | canto/core/state.py:817-832 | for any number of clients interleaved command by command, each call takes effect once between its beginning and its return, and all replies and the store are those of the atomic operations in that order |
| StateStore.RetryMeansInterference | canto/core/state.py:924-942 | a retry happens exactly when another call wrote a watched key since the watch began |
| StateStore.DecisionsLandTogether | canto/core/state.py:1075-1099 | at every point of any interleaved run an approval and its item are both as at the start or both as one decision left them, as long as only decisions write them |
| StateStore.RacingDecisionsWinOnce | canto/core/state.py:1075-1099 | of any number of clients racing to close one open approval at most one succeeds |
| Delegation.DelegationService.CreateTask | canto/core/delegation.py:40-47 | a new draft under an unused identifier, with no records |
| Delegation.DelegationService.Transition | canto/core/delegation.py:58-81 | only a transition of the table changes the status |
| Delegation.DelegationService.Capture | canto/core/delegation_artifacts.py:190-275 | the checks in order, then the next revision's result and the move to review, on this task only |
| Delegation.DelegationService.RequestRevision | canto/core/delegation_review.py:32-76 | the three ways into a revision, with the review each records |
| Delegation.DelegationService.Accept | canto/core/delegation_review.py:78-95 | an unchanged, intact latest result becomes accepted, with its review |
| Delegation.DelegationService.Reject | canto/core/delegation_review.py:97-106 | the latest result's task is rejected, with its review |
| Delegation.DelegationService.RecordCommand | canto/core/delegation_commands.py:47-152 | run, report and waive append one command record each, or refuse |
| Delegation.CaptureIsExact | canto/core/delegation_artifacts.py:190-275 | capture succeeds exactly for productive work whose every changed file is in scope and no link, and stores revision latest + 1 |
| Delegation.UnmetIsExact | canto/core/delegation_commands.py:154-169 | the unmet list holds exactly the required commands without observed pass or reasoned waiver |
| Delegation.OnlyPassOrWaiverMeets | canto/core/delegation_commands.py:122-169 | a command stops being unmet by an observed pass or a waiver of it and by nothing else |
| Delegation.DoKeepsEvidence | canto/core/delegation_commands.py:154-169 | no call loses command evidence: an empty unmet list stays empty |
| Delegation.DoKeepsSound | canto/core/delegation.py:58-81 | stored revisions stay 1..latest, the accepted revision is set exactly in the bound statuses and is the latest, each decision status has its review, no revision is accepted twice |
| Delegation.RunKeepsSound | canto/core/delegation.py:40-81 | over any interleaving of new tasks and of calls on any tasks, every task stays sound if and only if each new one has no revision and no acceptance yet |
| Delegation.PromotedForGood | canto/core/delegation_review.py:32-121 | a promoted task keeps its status, revisions, reviews and evidence under any further requests |
| Delegation.TerminalForGood | canto/core/delegation.py:19-33 | a task in one of the terminal statuses, which are those without a transition, keeps it under any further requests |
| Delegation.PromotedWasReviewed | canto/core/delegation_promotion.py:66-82 | from the empty store on, if each new task is clean: a promoted task's latest revision is stored, was accepted by a review, and has evidence for every required command |
| Delegation.ExecutorDoneExit | canto/core/delegation_artifacts.py:197-203 | `executor_done` can be left exactly when no result exists yet or the last launch did reviewable work |
| Delegation.StrandedForGood | canto/core/delegation_review.py:36-51 | a task stranded there stays stranded under every later call |
| Delegation.StrandedIsReachable | canto/core/delegation_artifacts.py:197-203 | a first result, a revision and an unproductive relaunch strand a task |
| Promotion.PromotionService.CheckPromotable | canto/core/delegation_promotion.py:58-115 | the checks before the decision record, in order, and the first that fails |
| Promotion.PromotionService.PromoteTask | canto/core/delegation_promotion.py:58-177 | one promotion: the whole new state of tree, tasks and records, and the error raised |
| Promotion.PromotionService.ApplyAndVerify | canto/core/delegation_promotion.py:126-177 | apply, verify, roll back if either failed, and record the outcome |
| Promotion.ReverseUndoes | canto/core/delegation_promotion.py:225-230 | reversing an applied patch restores the tree |
| Promotion.DisjointPatchesCommute | canto/core/delegation_promotion.py:187-188 | patches on disjoint paths apply in either order with the same result |
| Promotion.RollbackRestores | canto/core/delegation_promotion.py:138-160 | a rollback is recorded as successful exactly when the patch went in and Git took it out, and then the tree is as before |
| Promotion.PromoteKeepsGood | canto/core/delegation_promotion.py:113-160 | every promotion, successful or not, keeps the tree equal to HEAD overlaid with the landed patches, each of a promoted or stuck revision |
| Promotion.TreeIsHeadPlusLanded | canto/core/delegation_promotion.py:85-160 | after any history of promotions, and of whatever else happens to the tasks between them, the tree is HEAD plus exactly the revisions that some attempt left there, pairwise disjoint; each is promoted or stuck, each promoted task's is among them, none is promoted again |
| Promotion.PromotionOutcome | canto/core/delegation_promotion.py:126-177 | an attempt promotes exactly when Git applies and the comparison runs; its record, the task's status and whether its patch stays, by what Git did |
| Promotion.StuckIsExact | canto/core/delegation_promotion.py:138-160 | if Git applied the patch in every attempt at a revision, that is recorded as stuck exactly when it is in the tree unpromoted |
| Promotion.PromotesAlone | canto/core/delegation_promotion.py:66-82 | a promotion leaves its revision as the task's only one in the tree exactly when none of the task's was there before |
| Promotion.OneRevisionByAttempts | canto/core/delegation_promotion.py:126-177 | over any history a promoted task has one revision in the tree exactly when no attempt at another one stayed there |
| Promotion.OneRevisionExactly | canto/core/delegation_promotion.py:138-160 | if Git applied the patch in each attempt, exactly when no record of the task has an unconfirmed rollback |
| Promotion.NothingStaysBehind | canto/core/delegation_promotion.py:225-230 | while reversal works, exactly the promoted revisions are in the tree |
| Promotion.OrderDoesNotMatter | canto/core/delegation_promotion.py:113-160 | two histories that promoted the same patches, with working reversal, leave the same tree |
| Promotion.PromotedPathsAreInScope | canto/core/delegation_promotion.py:105-112 | every path of a promoted patch is allowed and not denied by its task |
| PromotionLifecycle.PromotionIsALifecycleStep | canto/core/delegation_promotion.py:126-177 | seen from the task, a promotion is refused and settled exactly as the lifecycle has it |
| PromotionQueue.EntryIsClear | canto/core/delegation_queue.py:55-92 | a promotion through the queue is free of equal, ancestor and descendant paths with every other entry of its repository |
| PromotionQueue.QueueGuardIsExact | canto/core/delegation_queue.py:102-113 | the promoted patch itself is clear of every possible neighbour exactly when the entry's paths cover the accepted files |
| PromotionQueue.QueuePromotionsNeverOverlap | canto/core/delegation_queue.py:71-113 | over any history of queueing, promotion and revision, the files of two promoted results of one repository are clear of each other if their entries cover them |
| PromotionQueue.UnrevisedPromotionsNeverOverlap | canto/core/delegation_queue.py:33-113 | while nothing is revised, no two patches promoted through the queue overlap, without a condition |
| PromotionHistory.WorkIsALifeMove | canto/core/delegation_promotion.py:66-82 | every lifecycle call but promotion, as promotion sees the task, only adds results, never promotes, and leaves a promoted task as it is |
| PromotionHistory.StepKeepsAgree | canto/core/delegation_promotion.py:126-177 | over lifecycle calls, queueing and promotions the lifecycle's records of every task and the repository's view of it agree |
| PromotionHistory.HistoryKeepsTree | canto/core/delegation_promotion.py:58-177 | from new drafts on, over any calls, the tree is HEAD plus promoted and stuck revisions on disjoint paths, and every promoted revision was reviewed, accepted and fully evidenced |
| PromotionHistory.OneRevisionInTheTree | canto/core/delegation_promotion.py:66-71 | in such histories a promoted task has one revision in the tree if its records show every rollback confirmed, and only then if Git applied the patch whenever it was promoted |
| PromotionHistory.HistoryNeverOverlaps | canto/core/delegation_queue.py:71-113 | in such histories too, results promoted through the queue are clear of each other if their entries cover them |
| RevisedPromotion.RevisedResultSlipsThrough | canto/core/delegation_queue.py:102-113 | a history of service calls: queued, promotion failed and taken back, revised, accepted again; the queue then promotes it although it changes a file another queued task changes |
| RevisedPromotion.TwoRevisionsInTheTree | canto/core/delegation_review.py:52-66 | a history in which a task's stuck first revision and its promoted second one are both in the tree |
| Paths.UnderIsComponentPrefix | canto/core/delegation_promotion.py:44-45 | the string test for a path under a root is the component-prefix relation |
| Paths.CoverIsExact | canto/core/delegation_queue.py:19-20 | being clear of everything one set is clear of is being covered by that set |
| Crawler.Crawl | skills/source_inventory/providers/public_html_crawler/run.py:76-138 | terminates, fetches each URL at most once, lists HTML pages nearest first, each at its exact link distance within the limit, no nearer one left out; complete when the page cap is not reached |
| Crawler.QueueLinks | skills/source_inventory/providers/public_html_crawler/run.py:103-111 | a page's new links join the queue one level deeper, and the queue stays a breadth-first numbering |
| Crawler.LevelDrops | skills/source_inventory/providers/public_html_crawler/run.py:76-138 | the loop's measure decreases: levels left, then entries left on the level |
| Catalog.ModelCatalog.DiscoverModels | canto/core/ai_discovery.py:156-230 | the stored records after a discovery, one listed model after the other |
| Catalog.ModelCatalog.RefreshModels | canto/core/ai_reconciliation.py:45-199 | the stored records and the report of a refresh, answered or not |
| Catalog.ModelCatalog.ForgetModel | canto/core/ai_reconciliation.py:312-329 | only an unavailable, unreferenced model is removed |
| Catalog.ModelCatalog.StoreProbe | canto/core/ai_probe.py:186-201 | the result and the model as it was read, with the verdict |
| Catalog.StepKeepsHonest | canto/core/ai_probe.py:189-201 | whole discoveries, refreshes and removals, and both halves of a probe, keep every current record equal to the last verdict under its key |
| Catalog.AcceptedWasProbed | canto/core/ai_selection.py:207-216 | after calls that do not overlap, probes excepted, what passes the probe gate was last probed at its catalogued version and checksum, as the required class |
| Catalog.ProbedIsNeverForgotten | canto/core/ai_reconciliation.py:318-337 | after such calls every probed model is still in the catalogue |
| CatalogSteps.UninterruptedIsAtomic | canto/core/ai_reconciliation.py:45-163 | a refresh, discovery or removal whose store accesses nobody interrupts does what the one-step operation does |
| CatalogSteps.AcceptedWasOnceProbed | canto/core/ai_selection.py:207-216 | under every interleaving of store accesses, what passes the probe gate was probed at its catalogued version and checksum, as the required class |
| CatalogSteps.SafeIsExact | canto/core/ai_reconciliation.py:57-163 | nothing can go wrong before the next verdict, however the other calls go on, exactly when no record that a call still holds and no removal under way contradicts the last verdicts |
| CatalogSteps.VerdictKeepsSafeExactly | canto/core/ai_probe.py:189-201 | writing a verdict keeps this exactly when no refresh or discovery holds a current copy of the model with other evidence and no removal of it is past its check |
| CatalogSteps.DisciplineIsExact | canto/core/ai_reconciliation.py:57-163 | a run is safe throughout if and only if each of its verdicts is written undisturbed so |
| CatalogSteps.DisciplinedIsTrusted | canto/core/ai_selection.py:207-216 | after such a run from the empty catalogue accepted records show the last verdict, and no probed model is lost |
| CatalogSteps.RefreshOverturnsVerdict | canto/core/ai_reconciliation.py:57-139 | an interleaving after which a model passes the gate against its last probe |
| CatalogSteps.RemovalLosesProbedModel | canto/core/ai_reconciliation.py:312-327 | an interleaving after which a probed model is not in the catalogue |
| CatalogSteps.SeparateIsDisciplined | canto/core/ai_reconciliation.py:57-163 | a run is disciplined if no refresh, discovery or removal of a model is under way when its verdict is written |
| CatalogSteps.VerdictRestoresListing | canto/core/ai_probe.py:101-201 | whatever happens meanwhile, a verdict leaves its model listed as when the probe began; it undoes nothing exactly if the catalogue shows that again |
| CatalogSteps.UntouchedVerdictKeepsListing | canto/core/ai_probe.py:101-201 | so it undoes nothing if nobody writes or removes the model while it is probed |
| CatalogSteps.VerdictUndoesDiscovery | canto/core/ai_probe.py:189-201 | an interleaving in which a verdict puts an older version back, as current |
| Catalog.ReportConservesItems | canto/core/ai_reconciliation.py:92-116 | every returned item is reported once, under one heading, also when ids repeat |
| Catalog.ReportMeans | canto/core/ai_reconciliation.py:95-152 | added: returned and new; changed: returned with another version or checksum than before; unchanged: with the same; missing: previous and not returned |
| Catalog.ReportIsAPartition | canto/core/ai_reconciliation.py:92-152 | with distinct ids added, changed and unchanged partition the returned keys, and missing is previous minus returned |
| Catalog.RefreshLeaves | canto/core/ai_reconciliation.py:118-163 | returned models are available as returned, own models not returned are missing, all others untouched |
| Catalog.MissingWasOmitted | canto/core/ai_reconciliation.py:59-163 | over any run, a missing model was left out of the answer to some refresh; unanswered refreshes make nothing missing |
| Selection.NarrowingIsExact | canto/core/ai_selection.py:26-33 | the composed list allows exactly what all lists allow if and only if some element satisfies them all |
| Selection.DisjointListsWiden | canto/core/ai_selection.py:26-33 | disjoint lists compose to one that allows everything |
| Selection.CompositionNeverWidens | canto/core/ai_selection.py:62-114 | what the composed policy authorizes passes every layer's endpoint, provider, model, cloud and cost checks |
| Selection.LaterLayerPrevails | canto/core/ai_selection.py:36-45 | a later layer has the last word on priority and preference; the cost limit is the lesser, and a budget once enabled stays enabled |
| Selection.LaterLayerWithholds | canto/core/ai_selection.py:91-113 | a later layer can withhold cloud use, cloud fallback and unknown prices, never grant them |
| Selection.LaterLayerDemands | canto/core/ai_selection.py:93-103 | a later layer can demand local models first, and the implementation class, never lift the demand |
| Selection.MinimumIsLeast | canto/core/ai_selection.py:36-38 | the composed limit is the least of those set |
| Selection.ScoreModel | canto/core/ai_selection.py:186-258 | no rejection is listed exactly for an eligible model, and only then there is a score |
| Selection.Select | canto/core/ai_selection.py:142-183 | the selected key is the first of the eligible candidates in the order of score and key |
| Selection.SelectedIsBest | canto/core/ai_selection.py:163-165 | the selected model is eligible and no eligible one outscores it or ties with a smaller key |
| Selection.SelectionIgnoresOrder | canto/core/ai_selection.py:151-165 | any listing order of the models gives the same choice |
| Selection.PreferenceDecides | canto/core/ai_selection.py:228-248 | under every priority a model at preference rank at most 7990 outscores every non-preferred one |
| Selection.PreferenceBoundIsExact | canto/core/ai_selection.py:228-248 | at rank 7991 a local model wins under the economy priority |
| Selection.SelectedWasProbed | canto/core/ai_selection.py:207-216 | under every interleaving a selected model was probed at its catalogued version and found to be of the required class; if all verdicts were written undisturbed, that was the last |
| Launch.LaunchWorker | canto/core/ai_assignment.py:44-114 | terminates; tries no model twice, only eligible ones on endpoints not seen to fail, cloud after a failure only if allowed, nothing after a changed workspace; ends executor_done, failed or untouched; stops only when nothing may follow |
| Launch.ChoiceIsBest | canto/core/ai_assignment.py:66-75 | each attempt takes the best eligible model not tried yet |
| Launch.OneMoreTried | canto/core/ai_assignment.py:199-219 | an endpoint that could not be reached stays marked, so nothing on it is tried again in this launch |
| ApiWorker.AnthropicMessages | canto/core/ai_worker.py:181-211 | for every history: roles alternate strictly, and all blocks are there, in order, on their side |
| ApiWorker.HistoryTranslationIsUnique | canto/core/ai_worker.py:181-211 | a history's translation is free of empty turns exactly when the prompt is not empty; then it is the only alternating list of non-empty turns with the history's blocks |
| ApiWorker.HistoriesArePaired | canto/core/ai_worker.py:408-475 | every history the model sees translates to turns from user to user, each assistant turn's tool uses answered id by id in the next |
| ApiWorker.Run | canto/core/ai_worker.py:396-475 | the loop's session: messages, usage, summaries, ending |
| ApiWorker.RunIsBudgeted | canto/core/ai_worker.py:424-475 | at most max_turns model calls and max_tool_calls executed tools, usage is the sum over the responses, tools run in the order requested, a token ending exactly when a token budget is exceeded |
| Memory.ActKeepsInv | canto/core/memory.py:153-283 | every store access of the memory service keeps items, approvals and the copies held by all callers consistent |
| Memory.ItemsAreBacked | canto/core/memory.py:222-283 | under any interleaving an active or superseded item has an approved approval naming it, a rejected one a denied one, a proposed one's approval is pending |
| Memory.ActivatedOnce | canto/core/memory.py:246-258 | no item is ever activated through two approvals |
| MemoryIndex.SqliteMemoryStore.SetMemoryItem | canto/core/state.py:615-652 | item and index rows are written together, or a constraint error changes nothing |
| MemoryIndex.SqliteMemoryStore.TransitionMemoryItem | canto/core/state.py:688-707 | the conditional update with its index, or nothing |
| MemoryIndex.SqliteMemoryStore.TransitionMemoryApproval | canto/core/state.py:764-800 | both updates with the index, or a rollback |
| MemoryIndex.SqliteMemoryStore.DeleteMemoryItem | canto/core/state.py:709-713 | the item goes with its full-text row and, by cascade, its aliases and tags |
| MemoryIndex.WriteIsExact | canto/core/state.py:633-652 | a write succeeds exactly when aliases and tags stay distinct after normalization; if not, no table changes |
| MemoryIndex.DecisionIsExact | canto/core/state.py:764-800 | when the decision changes the tables, and what it changes |
| MemoryIndex.IndexAlwaysAgrees | canto/core/state.py:615-713 | after any operations the alias, tag and full-text tables hold exactly the rows derived from the items, one full-text row per item |
| Recall.SelectRanked | canto/core/memory.py:344-360 | the selection is within both budgets with its exact token sum, truncated exactly when something was dropped |
| Recall.KeptInRankOrder | canto/core/memory.py:354-359 | the selection keeps rank order |
| Recall.SelectionIsMaximal | canto/core/memory.py:354-359 | nothing dropped would still fit beside the final selection |
| Recall.Tokens | canto/core/memory.py:60-61 | a quarter of the length rounded up, at least one |
| Recall.ActivationService.Activate | canto/core/memory.py:466-511 | activates exactly when the policy allows it and both counts are below their limits, which therefore hold for every day and source, whatever developers activate besides |
| Recall.ActivationService.Purge | canto/core/memory.py:285-291 | removing an item keeps both limits, whether or not its events go with it |
| Package.ParseChecksums | canto/core/capability_package.py:191-218 | the line loop computes the map and the errors line by line |
| Package.ChecksumsRoundTrip | canto/core/capability_package.py:129-134 | parsing what was printed gives exactly the digests and no errors if and only if every path is safe, on one line and not the checksum file's own |
| Package.ValidatePackage | canto/core/capability_package.py:221-283 | no problem is found exactly for unique, safe, plain entries that match a complete checksum file, with an acceptable manifest |
| Package.ChecksumsDetermineContents | canto/core/capability_package.py:256-273 | two accepted archives with the same checksum file hold the same files, or two different contents with one digest |
| Package.StandardNamesAreProper | canto/core/capability_package.py:18-27 | the reserved names are distinct, plain and not excluded |
| Package.CollectPackageFiles | canto/core/capability_package.py:106-126 | succeeds exactly without links and without an unexpected checksum file, and gives the files not excluded under their archive paths |
| Package.PackedIsAccepted | canto/core/capability_package.py:145-183 | a packed directory is acceptable exactly when its manifest is and no collected path spans lines |
| Package.ExtractPackage | canto/core/capability_package.py:318-333 | extracts exactly the acceptable archives none of whose targets is the directory itself or a directory on the way to another, and leaves each file's content |
| Package.ExtractIsExact | canto/core/capability_package.py:326-331 | writing entry by entry succeeds or fails by that condition alone, whatever the order |
| Package.PackRoundTrip | canto/core/capability_package.py:318-333 | what was packed can be extracted exactly when no collected path, nor the checksum file's, is a directory on the way to another; collecting again, old checksums replaced, then gives the same files |
| Package.OnlyReservedNamesClash | canto/core/capability_package.py:106-126 | for a real directory this fails exactly when a collected file lies in a directory named as the manifest or the checksum file |
| Package.AcceptedButNotExtractable | canto/core/capability_package.py:326-331 | `manifest.yaml` beside `canto.yaml/x` is packed and accepted, but not extractable |
| Transformations.GetSet | import_capability/transformations.py:15-32 | reading a written path gives the written value |
| Transformations.GetOther | import_capability/transformations.py:24-32 | unrelated paths are unchanged by a write |
| Transformations.SetSucceeds | import_capability/transformations.py:24-32 | a write conflicts exactly when something other than an object lies on the way |
| Transformations.SetsCommute | import_capability/transformations.py:24-32 | writes to unrelated paths commute |
| Transformations.TransformContent | import_capability/transformations.py:50-68 | every page is transformed or the whole call fails; applied plus skipped pairs equal pages times rules |
| Transformations.IndependentRulesDeliver | import_capability/transformations.py:50-68 | with unrelated targets no rule conflicts, each present source value is at its target, the id stays, and nothing else appears |
| Transformations.RuleOrderDoesNotMatter | import_capability/transformations.py:53-66 | neighbouring independent rules may change places |
| SharedTransformations.SharingIsInvisible | import_capability/transformations.py:15-68 | if no value is written below an object taken over from the page, working by reference leaves the page as it was, and succeeds and shows exactly what working on copies does |
| SharedTransformations.SharedSkipsAgree | import_capability/transformations.py:54-65 | and the same rules are skipped |
| SharedTransformations.SharingShows | import_capability/transformations.py:53-66 | a page and three rules of which the third finds a value by reference and is skipped on copies |

## Left out

- Jobs.ActKeepsInv: the job service and the memory service are state machines over their store accesses, not classes; updating objects in place shows only in the copies each caller holds.
- Jobs.KeySucceedsAtMostOnce: safety only; failures before the provider leave a claim running for good, so a key need not ever be freed.
- Jobs.ProviderStartsAtMostOnceAndApproved: limits, credentials, dependency checks and validation are choices of the outside world; job, approval and memory identifiers are taken to be unique.
- Approval refresh and plan approvals in `canto/core/orchestration.py`, the mapping of job outputs to step artifacts, and timestamps.
- Capabilities.Registry.Producer: capability names are unique, so the version in the sort key never decides; scores themselves (token overlap) are inputs.
- Orchestration.PlanTarget: any topological order with the target last satisfies the contract; which one the search picks among them is not stated.
- PlanExecution.CreatePlan: the versions and providers a plan records, and the approvals it requests.
- The order of step reasons and warnings in a preview.
- Promotion.PromotionService.PromoteTask: one call at a time on a working tree; Git, hashes and artifact files are outcomes of the outside world, and a patch is a map from paths to contents.
- PromotionHistory.HistoryKeepsTree: HEAD does not move within a history, and a captured patch is taken to be a real change of the listed files.
- Delegation.DoKeepsSound: calls on one task are atomic; direct transitions to `cancelled`, and to `rejected` from a failed promotion, have no service that asks for them and are not modelled.
- Delegation.DelegationService.RecordCommand: parsing and running a command line; a waiver's reason is kept as given instead of trimmed.
- Crawler.Crawl: redirects, URL normalization and page metadata; the web answers the same throughout a crawl.
- StateStore.RunIsLinear: set memberships written beside a record (`SADD`), event lists, and connection failures; stored records are non-empty.
- Launch.LaunchWorker: usage records, prompts and prices; `canto/core/cli_worker_selection.py` and `allowed_transports`.
- Selection.CompositionNeverWidens: the required classification is combined, not narrowed, so nothing is claimed for it; scores are over reals.
- ApiWorker.Run: joining and trimming the summaries, the other providers' message formats, parsing of provider responses, the tools' own effects.
- Catalog.StepKeepsHonest: calls are whole, and only a probe may span others; interleavings within them are the subject of `CatalogSteps`.
- CatalogSteps.SafeIsExact: listing a whole kind of record is one step; of two verdicts the one written to the model last is the last; model metadata deleted with a model.
- Catalog.RefreshLeaves: endpoint records, snapshots, health records, prices and display fields.
- Memory.ItemsAreBacked: titles, scopes and secrets; transitions asked of `transition` are to `expired` or `deleted` only.
- MemoryIndex.IndexAlwaysAgrees: row numbers, full-text ranking, links and projects; case folding is a parameter.
- Recall.SelectRanked: scoring, filtering and ranking of candidates.
- Recall.ActivationService.Activate: one call at a time, under one policy; nobody else signs with the orchestrator's identity.
- Package.ChecksumsRoundTrip: UTF-8 decoding, line numbers in error messages; SHA-256 and `int(text, 16)` are parameters.
- Package.PackRoundTrip: the zip container, file modes and file-system errors other than a file in the way of a directory; the paths of a directory are as a walk yields them.
- Package.ValidatePackage: the manifest's own validation is one yes-or-no input.
- Transformations.TransformContent: values are copied; `SharedTransformations` has Canto's sharing of one page at a time.
- SharedTransformations.SharingIsInvisible: the condition is sufficient; with a write into the page the results may still be the same.
- Command line, HTTP API, dashboards, demos, scaffolds, import providers and encryption.
