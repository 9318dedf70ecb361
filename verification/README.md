# Brigadir orchestrator: a verified model of the run lifecycle

This project models how the orchestrator drives a run from trigger to settlement, and proves what
holds under every interleaving of the processes that write the same rows. It checks with
`dafny verify dfyconfig.toml`.

**The run table and its writers.** `Runs` is the database as its writers see it: rows, the two partial
unique indexes (one active run per ticket; ticketless, per workspace) and every guarded statement as one atomic
`Write`. `RunHistory` proves what every history of writes keeps. `RunStore` holds the same tables as an object with one
method per statement. The processes are objects that call it: `OutboxReconcile` (the periodic reconciler), `ExitPath`
(a worker whose agent has ended), `ReportEffects` (a report with the question it opens), `HumanTasks` and `Resume`
(questions and answers), `CompletionHandler` (completions).
A method that runs through several statements takes `others`, the writes that other processes commit in
each gap, so its contract speaks about every interleaving.

**The failure, triage, rework loop.** `Pipeline` has the decisions, the derived budget and the two bounds
(rework runs of a ticket, length of the automatic chain). `RoutingReplay` is one routing decision statement by
statement, with a crash possible anywhere and replays one at a time; `RoutingOverlap` lets two handlers of it run at once.

**Dependency release.** `DependencyGate` (the pure gate), `BlockingCycles` (cycles of the waiting graph and the sets that
break them), `CycleSearch` (the iterative depth-first search), `ReleaseOrder` and `DependencyRelease` (one two-phase pass).

**The worker lock.** `WorkerLock` is a timed protocol of workers, one expiring key and a clock, in which a
request and its answer are separate steps; `WorkerLockBootstrap` switches the queue workers.

**Smaller cores.** `RateLimiter` (the token bucket and its retry loop), `AgentKey` (slugs and unique suffixes),
`AgentLinter` and `AgentRoster` (no two enabled agents react to the same tickets). `Text`, `FiniteSets` and `Wrappers`
are shared helpers.

What the proofs showed about the code:

- The conflict branch of the resume transaction (`resume.service.ts:260-270`) is unreachable while the per-ticket index
  holds and the transaction is atomic, as it is here: it frees the slot that it fills. The comment there calls it a race.
- The attempt of a resumed run is sure to grow only if its row was read after the run left the queue; a crash
  retry between the read and the park makes the successor repeat a number (`RetryOutrunsTheRead`).
- The exit path leaves a settled run alone exactly when it comes to no statement with the wide guard or the run is closed for
  good (`SettledRunIsLeftAloneIff`). So a report on disk overrules a park, and without the callback channel every finalize does.
- A blocking question that arrives between the exit path's check and its fail-closed statement is lost: the run fails, the
  question stays open, and answering it resumes nothing (`AQuestionBetweenCheckAndFailIsLost`, exactly when:
  `FailedOverAQuestionIff`). The other exits, a crash without retries left, a timeout, a cancel or a report, look for no question
  at all (`AttemptStrandsIff`).
- Without the callback channel a parking report whose inserts throw leaves a failed run with a parking outcome
  (`ReportThatThrowsFailsItsPark`).
- A `team` report that reaches the generic finalize, outside the setup path, parks its run without a question, and so does a crash
  between the update of a `needs_human` report and its insert (`ParkedRunHasAQuestionIff`).
- A rescue that would park a run whose ticket has a newer active run raises the unique violation; the reconciler keeps the
  file and tries again next pass.
- With a maximum of m rework cycles the bound of m + 1 is exact: every smaller count, and m + 1 after a human's answer, is reached
  (`EveryCountIsReachedIff`).
- Two handlers of one routing decision can mint two runs (`OverlappingHandlersMintTwice`); they cannot exactly when no replay
  check passes while the other may still mint (`OverlapIsSafeIffChecksAreExclusive`).
- The duplicate check of `request_human` and its insert are two statements, so two overlapping requests open two tasks
  (`OverlappingRequestsOpenTwoTasks`, exactly when: `SecondTaskIff`).
- `findCycleTickets` is documented as returning the members of a cycle. It returns whole cycles and breaks them all, but can miss a
  ticket on a cycle (`ATicketOnACycleIsMissed`); `ReturnedIff` says which tickets it returns, `HubAndPrivateCyclesAreReturned` where it
  cannot miss one.
- A pair that another writer runs and cancels between the candidate query and its request is run again
  (`APassRepeatsACancelledPair`); a pair is safe from that exactly while nobody brings it a run
  (`RequestedPairIsUnsuppressedIff`).
- The role-only fallback of `slugifyAgentKey` is unreachable (`KeyIsNeverEmpty`).
- A limiter configured for less than one request per second never lets anything through (`GrantsEverIffAtLeastOnePerSecond`).
- An agent update that names another workspace is linted against that workspace only
  (`UpdatesAreSafeIffTheyNameTheOwnWorkspace`).
- A worker lock with a time to live of 100 ms or less is renewed no earlier than it expires
  (`ThreeRenewalsFitFrom300`).

## Model

| member | source | states |
|---|---|---|
| `RunHistory.StepEvolves` | `libs/runs/src/runs.service.ts:57-274` | no single statement of any writer moves a row to another ticket, agent or trigger event, erases its outcome, requeues it once it has left the queue, lowers its attempt or touches it once decided and terminal |
| `RunHistory.HistoryEvolves` | `libs/runs/src/runs.service.ts:57-274` | the same over every interleaving of all writers: outcomes never go back to null, cancelled, superseded and succeeded are never left, `markRunning` never lowers the attempt |
| `RunHistory.HistoryReportsSuccess` | `libs/runs/src/runs.service.ts:83-144` | over every interleaving a succeeded run carries an outcome |
| `RunHistory.HistoryKeepsVerdicts` | `libs/runs/src/runs.service.ts:25-31` | over every interleaving a success or a routing is a succeeded run and stays one, a failure is a failed one, and only these and an accepted team make a run succeed |
| `RunHistory.RescuedAtMostOnce` | `libs/runs/src/runs.service.ts:116-144` | a run that a process outcome finalized is changed again at most once, and not at all once it has an outcome |
| `RunHistory.IndexMeans` | `libs/database/src/schema/runs.ts:50-62` | the two partial indexes column by column: of the queued, running and parked runs no two share a ticket, and of the ticketless ones no two share a workspace |
| `RunHistory.ViolationIsDoubleBooking` | `libs/database/src/schema/runs.ts:50-62` | the unique indexes reject exactly a trigger into a taken slot and a rescue that would park a run whose slot has been taken; no finalize, park, retry, pickup, cancel or resume can hit them |
| `RunHistory.GuardsAloneKeepTheIndexIff` | `libs/runs/src/run-trigger.service.ts:86-125` | what the guards do without the index: a history keeps one active run per slot throughout exactly when it never triggers into a taken slot and never parks a rescued run beside an active one |
| `RunHistory.CancelsMean` | `apps/backend/src/dashboard/runs.controller.ts:388-438` | the user's cancel stops exactly a running run; the bulk cancel exactly the queued and running runs of the workspace |
| `RunHistory.SetupWritesMean` | `libs/pipeline/src/setup-apply.service.ts:278-422` | the setup path settles exactly an active run, as succeeded with its team or as a failure |
| `RunHistory.OneActiveRunPerSlot` | `drizzle/0011_one_active_per_ticket.sql:20-21` | corollary, with the index rejecting those writes: in every reachable state a ticket, or without a ticket a workspace, has at most one active run |
| `RunHistory.OtherWritesActivateNothing` | `libs/runs/src/runs.service.ts:57-274` | however many writes other than triggers, resumes and rescues commit, no slot gains an active run |
| `RunHistory.ResumeSwapsTheActiveRun` | `libs/human-tasks/src/resume.service.ts:235-258` | the resume transaction replaces the one active run of its slot, the parked one, by its successor |
| `RunStore.Store.MarkRunning` | `libs/runs/src/runs.service.ts:57-68` | flips exactly queued and running runs, raising the attempt to the larger number |
| `RunStore.Store.MarkQueuedForRetry` | `libs/runs/src/runs.service.ts:71-76` | requeues only a running run |
| `RunStore.Store.FinalizeWithReport` | `libs/runs/src/runs.service.ts:263-274` | the UPDATE of a report: it settles exactly the active runs, a success or a routing as succeeded, a failure as failed, anything else as waiting for a human; its further effects are in `ReportEffects` |
| `RunStore.Store.ReconcileWithReport` | `libs/runs/src/runs.service.ts:124-136` | the same statuses under the one wide guard, active runs and failed or timed-out ones without an outcome; misses exactly the others, and throws exactly when it would double-book a slot |
| `RunStore.Store.FailIfStillRunning` | `libs/runs/src/runs.service.ts:160-178` | fails only a run that is still running |
| `RunStore.Store.ParkIfStillRunning` | `libs/runs/src/runs.service.ts:180-197` | parks only a run that is still running |
| `RunStore.Store.FinalizeStatusIfRunning` | `libs/runs/src/runs.service.ts:199-218` | a process outcome settles only a run that is still running |
| `RunStore.Store.FinalizeStatus` | `libs/runs/src/runs.service.ts:251-274` | the process outcome with the active guard, as the watchdog and the unwired paths use it |
| `RunStore.Store.Supersede` | `libs/human-tasks/src/resume.service.ts:105-111` | closing without a successor supersedes only a parked run |
| `RunStore.Store.Trigger` | `libs/runs/src/run-trigger.service.ts:86-125` | a free slot gets one queued run with attempt 1; a taken one is answered with the active run that holds it and nothing changes |
| `RunStore.Store.ResumeTransaction` | `libs/human-tasks/src/resume.service.ts:235-274` | succeeds exactly on a parked run, and the conflict branch is never taken while the index holds |
| `RunStore.Store.HasOpenBlockingTask` | `libs/human-tasks/src/human-task.service.ts:227-240` | finds exactly an open blocking task of the run |
| `RunStore.Store.Others` | `libs/runs/src/runs.service.ts:57-274` | any writes of other processes, in any number and order, between two statements of the caller |
| `ReportEffects.ParkedRunHasAQuestionIff` | `libs/runs/src/runs.service.ts:146-151` | a run parked by a report has a blocking question open exactly when one was open before, or the report needs a human and the process lived to insert it: a team report on this path and a crash before the insert park a run nobody can answer for |
| `ReportEffects.ReportDecides` | `libs/runs/src/runs.service.ts:25-31` | an update by a report leaves the run succeeded exactly for a success or a routing, failed exactly for a failure, and parked exactly when it needs a human or proposes a team |
| `ReportEffects.UndisturbedReportAsksIff` | `libs/runs/src/runs.service.ts:146-151` | a report opens one question, on the run's ticket, exactly when it takes effect, needs a human and none is open |
| `ReportEffects.ReportService.ApplyReport` | `libs/runs/src/runs.service.ts:83-144` | guarded update, duplicate check and question with other writers in each gap; accepted exactly when the update takes effect |
| `ReportEffects.ReportService.CreateHumanTask` | `libs/runs/src/runs.service.ts:289-330` | opens a blocking question exactly when none is open at the check |
| `OutboxReconcile.DecidedIsStable` | `apps/worker/src/outbox-reconcile.service.ts:198-227` | a decided run stays decided under every interleaving |
| `OutboxReconcile.Reconciler.ReconcileEntry` | `apps/worker/src/outbox-reconcile.service.ts:151-228` | with other writers between any two statements and by the status it looked up: running, or failed or timed out without an outcome, the report is applied to whatever run is then active or still without a verdict, and the file goes, unless that would double-book the slot; cancelled or superseded, the verdict is attached and the file goes; parked or queued, nothing is touched; otherwise the file alone goes. Unusable files go only by age |
| `OutboxReconcile.Reconciler.Deliver` | `apps/worker/src/outbox-reconcile.service.ts:198-227` | the same from the looked-up row on: applied, attached, left or discarded exactly by its status, and a file goes only over a decided run |
| `OutboxReconcile.Reconciler.ApplyRetention` | `apps/worker/src/outbox-reconcile.service.ts:236-241` | deletes exactly the files older than the retention window and forgets their warning |
| `ExitPath.SettledRunIsLeftAloneIff` | `apps/worker/src/claude-cli-run.processor.ts:349-513` | for every attempt and every parked or finalized row: all interleavings of the exit path have exactly the effect of the other writers alone if and only if the attempt comes to no statement with the wide guard, or the row is closed for good (succeeded, cancelled, superseded, or failed or timed out with an outcome) |
| `ExitPath.SettledRunIsLeftAlone` | `apps/worker/src/claude-cli-run.processor.ts:349-513` | the erasure behind it, from every step of an attempt without a wide statement |
| `ExitPath.ClosedRunIsLeftAlone` | `apps/worker/src/claude-cli-run.processor.ts:349-513` | a row closed for good is left alone from every step of every attempt |
| `ExitPath.CanComeToBeParked` | `libs/runs/src/runs.service.ts:116-144` | a failed or timed-out row without an outcome can be parked again, on a taken slot too, before a delivery |
| `ExitPath.OutboxReportOverrulesPark` | `apps/worker/src/claude-cli-run.processor.ts:363-382` | a report on disk finalizes a parked run, for every report and every attempt that reads it |
| `ExitPath.ReportThatThrowsFailsItsPark` | `apps/worker/src/claude-cli-run.processor.ts:417-431` | without the callback channel a report that parks its run and then throws in its inserts leaves it failed, with the outcome that had parked it |
| `ExitPath.ReportedAttemptEndsAs` | `apps/worker/src/claude-cli-run.processor.ts:349-513` | an undisturbed attempt with a report, on disk on the callback channel or returned without it, ends succeeded for a success or a routing, failed for a failure, parked otherwise, except that a parking report that throws without the channel fails |
| `ExitPath.UnreportedAttemptEndsAs` | `apps/worker/src/claude-cli-run.processor.ts:349-513` | without a report it ends parked for a silent exit with an open question and failed without one, requeued for a crash with attempts left and failed without, timed out, cancelled, or still running on a rate limit |
| `ExitPath.OverIsOver` | `libs/runs/src/runs.service.ts:160-274` | no statement of an exit path writes a run that is over, another run or a task, and an outcome it writes is that of its report |
| `ExitPath.ExitIsClassified` | `libs/runs/src/status-mapping.ts:37-69` | which exits, outcomes and attempt counts give which decision, each decision in exactly its cases |
| `ExitPath.FinishedAttemptLeavesNothingRunning` | `apps/worker/src/claude-cli-run.processor.ts:349-513` | in every interleaving an attempt that has come to its end, other than by a rate limit, has left its run not running unless it was picked up again |
| `ExitPath.Worker.Finish` | `apps/worker/src/claude-cli-run.processor.ts:349-513` | the imperative exit path, all branches, refines the step machine under every schedule |
| `ExitPath.Worker.FinishSilently` | `apps/worker/src/claude-cli-run.processor.ts:350-415` | completed on the callback channel: outbox report, else park for a pending question, else fail closed |
| `ExitPath.Worker.FinishDirectly` | `apps/worker/src/claude-cli-run.processor.ts:417-431` | completed without the channel: the report, or failed without one; what the report throws after its update fails the run if it is still active |
| `ExitPath.Worker.FinishAborted` | `apps/worker/src/claude-cli-run.processor.ts:433-512` | crash, timeout, rate limit and cancel each end in the statement the mapping prescribes |
| `ExitPath.Worker.FinishTimedOut` | `apps/worker/src/claude-cli-run.processor.ts:468-486` | a timeout first delivers the report on disk, and times the run out only if that settled nothing |
| `ExitPath.Job.Decision` | `libs/runs/src/status-mapping.ts:37-69` | a process that did not complete never succeeds and never parks its run |
| `HumanTasks.FailedOverAQuestionIff` | `apps/worker/src/claude-cli-run.processor.ts:383-415` | a silently completed run is failed over an open question exactly when none was open at the check, one is at the fail-closed statement, and the run is still running there; with any writers in the gaps |
| `HumanTasks.AttemptStrandsIff` | `apps/worker/src/claude-cli-run.processor.ts:349-513` | for every attempt and all writers in the gaps, exactly when it closes its run over an open blocking question: a silent exit as above, every other exit when its first statement ends the run and one is open there, or when the report it returned throws and one is open as the run is failed for it |
| `HumanTasks.AQuestionBetweenCheckAndFailIsLost` | `apps/worker/src/claude-cli-run.processor.ts:389-411` | it happens: the question inserted between check and fail-closed statement stays open on a failed run, its own park misses and resuming it later changes nothing |
| `HumanTasks.QuestionOpenBeforeTheCheckProtects` | `apps/worker/src/claude-cli-run.processor.ts:383-398` | a question open before the check, and not closed, keeps every interleaving from the fail-closed statement |
| `HumanTasks.BlockingRequestStopsTheRun` | `libs/human-tasks/src/human-task.service.ts:139-219` | after a blocking request the run is not running, on both branches and with any writers between the steps |
| `HumanTasks.UndisturbedRequest` | `libs/human-tasks/src/human-task.service.ts:139-219` | a request on its own opens one task on the run's ticket unless one of its kind is open, and parks a running run exactly when it blocks |
| `HumanTasks.QuestionStaysOpen` | `libs/human-tasks/src/human-task.service.ts:155-203` | an open question stays open under every history that closes no task |
| `HumanTasks.SecondTaskIff` | `libs/human-tasks/src/human-task.service.ts:151-203` | a request leaves a second open task of its kind exactly when it was no duplicate at its check and a rival's task is open as its own insert lands |
| `HumanTasks.OverlappingRequestsOpenTwoTasks` | `libs/human-tasks/src/human-task.service.ts:151-203` | it happens: two requests that both check before either inserts open two |
| `HumanTasks.UncontestedRequestOpensNoSecondTask` | `libs/human-tasks/src/human-task.service.ts:151-203` | without a rival of the same run and kind between check and insert there is no second task |
| `HumanTasks.HumanTaskService.CreateFromRequest` | `libs/human-tasks/src/human-task.service.ts:139-219` | deduplicates per blocking-ness on what is open at the check, parks on both branches of a blocking request, and answers accordingly |
| `Resume.AtMostOneSuccessor` | `libs/human-tasks/src/resume.service.ts:157-291` | over every history of concurrent resolvers and all other writers a parked run gets at most one successor |
| `Resume.AttemptGrowsIffReadAfterLeavingTheQueue` | `libs/human-tasks/src/resume.service.ts:163-182` | the successor of the same agent is sure to have a larger attempt exactly when the row was read after leaving the queue |
| `Resume.RetryOutrunsTheRead` | `libs/human-tasks/src/resume.service.ts:163-182` | the concrete race in which it does not: a retry raises the attempt between the read and the park |
| `Resume.ResumeWriteIsDisciplined` | `libs/human-tasks/src/resume.service.ts:209-258` | however late it commits, a resolver writes only successors of the run its own task asks about |
| `Resume.ResumeWriteAnswers` | `libs/human-tasks/src/resume.service.ts:157-258` | the transaction supersedes the parked run and adds one queued run on its ticket: the target agent's if one was chosen, attempt 1 for another agent and the read attempt plus one for the same; a setup run for a setup run, else answer-triage exactly for an orchestrator and human-resume for a worker, naming the task |
| `Resume.HistoryKeepsTask` | `libs/human-tasks/src/resume.service.ts:116-130` | no history moves a task to another run or reopens it |
| `Resume.Resolver.Resolve` | `libs/human-tasks/src/resume.service.ts:72-114` | each answer is given exactly in its case; declining writes nothing, closing supersedes exactly a run that still waits, and resuming happens exactly when the run still waits at the commit and adds the run `Answers` describes |
| `Resume.Resolver.ResumeParked` | `libs/human-tasks/src/resume.service.ts:157-291` | read, transaction and their outcome with other writers in between, and the columns of the new run |
| `Pipeline.ReworksAfter` | `libs/pipeline/src/rework-budget.ts:22-39` | the derived cycle count rises by exactly one for a rework insert and is untouched by every write that mints none |
| `Pipeline.CyclesNeverFall` | `libs/pipeline/src/rework-budget.ts:22-39` | no history lowers a cycle count |
| `Pipeline.RoutingAddsARunIff` | `libs/pipeline/src/pipeline.service.ts:479-639` | a completed orchestrator run adds a rework run exactly when it succeeded with a routing, no run of the ticket carries its id, the target is valid, the count is below the maximum or at it after an answer-triage, and no other run of the ticket is active; with every column of the new run |
| `Pipeline.RoutingDecisionTable` | `libs/pipeline/src/pipeline.service.ts:479-639` | each of the seven decisions is given exactly in its case |
| `Pipeline.TriageStartsIff` | `libs/pipeline/src/pipeline.service.ts:395-437` | a triage run is added exactly when the count is below the maximum, an orchestrator exists and no run of the ticket is active; each other decision exactly in its case |
| `Pipeline.EveryCountIsReachedIff` | `libs/pipeline/src/pipeline.service.ts:532-559` | from empty tables some history gives a ticket n rework runs if and only if n <= max + 1 |
| `Pipeline.HandleSpendsWithinBudget` | `libs/pipeline/src/pipeline.service.ts:532-559` | one completion spends at most one cycle, and none at the cap |
| `Pipeline.ReworkRunsAreBounded` | `libs/pipeline/src/pipeline.service.ts:532-559` | with completions one at a time a ticket never has more than m + 1 rework runs over any history, and never more than m unless a run on it was an answer-triage |
| `Pipeline.ContinuationDescends` | `libs/pipeline/src/pipeline.service.ts:303-347` | every automatic continuation lowers twice the cycles left plus one while a worker run is current |
| `Pipeline.AutomaticChainIsShort` | `libs/pipeline/src/pipeline.service.ts:395-437` | the fail, triage, rework chain ends by itself within 2 (m - c) + 1 runs, whatever else happens on the ticket |
| `Pipeline.CompletionStartsARunIff` | `libs/pipeline/src/pipeline.service.ts:303-347` | a completion adds a run, one, exactly when it is a failed worker within the budget or a routing that passes every check, on a free ticket |
| `Pipeline.ChainAlternatesAndEndsUnrouted` | `libs/pipeline/src/pipeline.service.ts:303-347` | in every automatic chain worker and orchestrator runs alternate, every completion but the last is a worker failing within the budget or an orchestrator routing past every check, on a free ticket, and an unrouted orchestrator completion is the last |
| `RoutingReplay.OneDecisionOneRun` | `libs/pipeline/src/pipeline.service.ts:451-477` | with a crash possible between any two statements and any number of replays one at a time, at most one run carries the decision and the marker says routed exactly when it exists |
| `RoutingReplay.RunAllKeepsInv` | `libs/pipeline/src/pipeline.service.ts:519-639` | the invariant behind it, kept by every step, crash, replay and foreign write |
| `RoutingReplay.ExecutedIffMinted` | `libs/pipeline/src/pipeline.service.ts:649-664` | the replay lookup finds a run exactly when the decision was executed |
| `RoutingOverlap.OverlapIsSafeIffChecksAreExclusive` | `libs/pipeline/src/pipeline.service.ts:519-639` | for every schedule of two handlers, with crashes and foreign writes: every state keeps the decision at one run, short of a further check, if and only if no replay check passes while the other handler may still mint |
| `RoutingOverlap.SafeIffAtMostOneChance` | `libs/pipeline/src/pipeline.service.ts:519-639` | a state of two handlers is safe exactly when the runs minted and the handlers past their check and budget are at most one together |
| `RoutingOverlap.OverlappingHandlersMintTwice` | `libs/pipeline/src/pipeline.service.ts:519-639` | from every routed decision with budget and a free slot the concrete execution: both handlers pass their checks, the first mints, its run ends, the second mints again |
| `RoutingReplay.UndisturbedHandlerDecides` | `libs/pipeline/src/pipeline.service.ts:479-639` | run without interruption the statements add up to the single-step decision |
| `CompletionHandler.MarkerMeans` | `libs/pipeline/src/pipeline.service.ts:239-311` | which marker a completion leaves: setup by status, worker with a triage decision exactly when it failed or timed out and `triaged` exactly when a run was started; and when Jira is needed |
| `CompletionHandler.Completions.OnRunFinished` | `libs/pipeline/src/pipeline.service.ts:239-311` | a marked or unfinished run is left alone; otherwise the effect and the marker are those of its completion; with Jira down nothing is enqueued and a marker is left exactly when the decision needs no Jira write; a ticketless run of an agent that is no orchestrator gets none |
| `CompletionHandler.Completions.StartTriage` | `libs/pipeline/src/pipeline.service.ts:395-437` | triage is started exactly with a cycle left, an orchestrator and no active run of the ticket; the run it adds |
| `CompletionHandler.Completions.ProcessOrchestratorDecision` | `libs/pipeline/src/pipeline.service.ts:479-639` | a rework run is added exactly when row, target, budget (with the one human-granted cycle) and slot allow it, with its columns; with Jira down no decision is recorded exactly when it would have come to a Jira write |
| `DependencyGate.ClearMeaning` | `libs/pipeline/src/dependency-gate.ts:38-70` | the gate is clear exactly when every inward blocked-by link is done or at the release status, names compared trimmed and without case, a blank release status matching nothing |
| `DependencyGate.KeysWhereMember` | `libs/pipeline/src/dependency-gate.ts:72-81` | a key is listed exactly when a kept link names it |
| `DependencyGate.KeysFollowTheLinks` | `libs/pipeline/src/dependency-gate.ts:53-81` | keys are listed link by link, in link order |
| `DependencyGate.BlockersMean` | `libs/pipeline/src/dependency-gate.ts:53-81` | which keys are observed and which hold the ticket back, link by link |
| `Text.LowerIgnoresExactlyCase` | `libs/pipeline/src/dependency-gate.ts:33-35` | lower-casing plain text identifies exactly what differs in the case of ASCII letters |
| `Text.LowerIsFixedIff` | `libs/pipeline/src/dependency-gate.ts:33-35` | and leaves a text alone exactly when it has no capital |
| `Text.TrimIsTheCore` | `libs/pipeline/src/dependency-gate.ts:33-35` | trimming takes off blanks at the two ends only |
| `DependencyGate.OpenBlockersAreObserved` | `libs/pipeline/src/dependency-gate.ts:53-81` | what gates is among what is observed, so a blocked ticket never has an empty cache |
| `DependencyGate.EarlyReleaseIsExact` | `libs/pipeline/src/dependency-gate.ts:83-97` | a release status only opens the gate further, and a release is noted as early exactly when the plain done rule would still hold the ticket |
| `DependencyGate.BlankReleaseStatusIsAbsent` | `libs/pipeline/src/dependency-gate.ts:38-51` | a release status that normalizes to nothing is no release status |
| `CycleSearch.FindCycleTickets` | `libs/pipeline/src/dependency-release.service.ts:414-450` | returns exactly the tickets of the search; they are a union of whole cycles that breaks every cycle, empty exactly when the waiting graph is acyclic |
| `CycleSearch.ReturnedIff` | `libs/pipeline/src/dependency-release.service.ts:414-450` | for every graph and order: a ticket is returned exactly when it lies on a cycle none of whose tickets was finished before the search entered it |
| `CycleSearch.CompleteIff` | `libs/pipeline/src/dependency-release.service.ts:414-450` | every ticket on a cycle is returned exactly when each had such a cycle as it was entered |
| `CycleSearch.ReturnedAreWholeCycles` | `libs/pipeline/src/dependency-release.service.ts:434-437` | each returned ticket lies on a cycle all of whose tickets are returned |
| `CycleSearch.ReturnedBreakAllCycles` | `libs/pipeline/src/dependency-release.service.ts:414-450` | of every cycle at least the ticket entered first is returned |
| `CycleSearch.HubIsReturned` | `libs/pipeline/src/dependency-release.service.ts:414-450` | whatever the order, a ticket with a cycle of tickets it blocks directly is returned |
| `CycleSearch.HubAndPrivateCyclesAreReturned` | `libs/pipeline/src/dependency-release.service.ts:414-450` | whatever the order, where every ticket on a cycle has such a hub cycle, or a cycle that meets only cycles through it, exactly the tickets on cycles are returned |
| `CycleSearch.SymmetricBlockersAreComplete` | `libs/pipeline/src/dependency-release.service.ts:414-450` | so they are where tickets only ever block each other |
| `CycleSearch.SingleBlockersAreComplete` | `libs/pipeline/src/dependency-release.service.ts:414-450` | and where no ticket has two waiting blockers |
| `CycleSearch.ATicketOnACycleIsMissed` | `libs/pipeline/src/dependency-release.service.ts:414-450` | a ticket on a cycle that is not returned, at three tickets |
| `CycleSearch.BackEdge` | `libs/pipeline/src/dependency-release.service.ts:434-437` | what a back edge marks is a whole cycle with nothing finished on it |
| `CycleSearch.LeftUnmarkedIsBarren` | `libs/pipeline/src/dependency-release.service.ts:428-432` | a node is left unmarked only when every cycle through it runs into a node finished before it was entered |
| `CycleSearch.TurnKeepsSound` | `libs/pipeline/src/dependency-release.service.ts:425-443` | every turn of the loop keeps stack, path, colours and verdicts in step |
| `CycleSearch.DepthFirst.MarkFrom` | `libs/pipeline/src/dependency-release.service.ts:434-437` | marks exactly the stack from the target of the back edge up |
| `CycleSearch.DepthFirst.Step` | `libs/pipeline/src/dependency-release.service.ts:425-443` | one turn in place is the turn of the search |
| `CycleSearch.DepthFirst.Visit` | `libs/pipeline/src/dependency-release.service.ts:419-444` | one visit, which ends, is the visit of the search |
| `CycleSearch.DepthFirst.Run` | `libs/pipeline/src/dependency-release.service.ts:446-448` | the loop over the waiting tickets is the search |
| `BlockingCycles.BoundToBeReturnedIff` | `libs/pipeline/src/dependency-release.service.ts:414-450` | every union of cycles that breaks all cycles contains a ticket exactly when the ticket has a private cycle: what these two promises alone guarantee |
| `ReleaseOrder.CompareIsATotalOrder` | `libs/pipeline/src/dependency-release.service.ts:464-471` | the comparator is antisymmetric and ties only equal tickets |
| `ReleaseOrder.BeforeMeans` | `libs/pipeline/src/dependency-release.service.ts:464-471` | which order it is: prioritized before unprioritized, the smaller priority id first, and on equal priorities the smaller key |
| `Text.LexLessMeans` | `libs/pipeline/src/dependency-release.service.ts:470-470` | smaller means: at the first difference the first text ends or has the smaller character |
| `ReleaseOrder.BeforeTransitive` | `libs/pipeline/src/dependency-release.service.ts:464-471` | and transitive |
| `ReleaseOrder.SortIsASortedPermutation` | `libs/pipeline/src/dependency-release.service.ts:169-177` | the release order is a sorted permutation of the candidates |
| `ReleaseOrder.SortIsStable` | `libs/pipeline/src/dependency-release.service.ts:169-177` | rows of equal rank keep the order of the query |
| `DependencyRelease.CacheAgreesWithGate` | `libs/pipeline/src/dependency-release.service.ts:199-212` | the row after a pass: untouched unless looked at and fetched; then all observed blockers, the fresh priority, and none, cycle, out of scope, dead end or waiting exactly in its case, in that precedence |
| `DependencyRelease.RequestedIffReleased` | `libs/pipeline/src/dependency-release.service.ts:182-206` | a run is requested for exactly the clear candidates |
| `DependencyRelease.RequestsAreSorted` | `libs/pipeline/src/dependency-release.service.ts:169-206` | in release order |
| `DependencyRelease.SuppressedMeans` | `libs/pipeline/src/dependency-release.service.ts:127-138` | a pair is kept from being released exactly by a run of it that is neither failed nor timed out nor superseded |
| `DependencyRelease.RequestedPairIsUnsuppressedIff` | `libs/pipeline/src/dependency-release.service.ts:103-141` | a pass requests exactly the clear rows, and from the candidate query to its request a pair stays without an active, succeeded or cancelled run if and only if in no gap so far another writer brings it one |
| `DependencyRelease.SuppressedByWriteIff` | `libs/pipeline/src/dependency-release.service.ts:127-138` | a write brings a pair such a run exactly when it is an accepted insert for it, a resume of a parked run of the ticket by the agent, or an accepted rescue of a run of it that does not fail it again |
| `DependencyRelease.RequestRepeatsIff` | `libs/pipeline/src/dependency-release.service.ts:127-138` | a request runs a pair that has such a run once more exactly when no run of the ticket is active and the pair has a succeeded or cancelled run |
| `DependencyRelease.APassRepeatsACancelledPair` | `libs/pipeline/src/dependency-release.service.ts:179-206` | it happens in a pass, after any earlier rows: a pair that another writer runs and cancels before its row is run once more |
| `DependencyRelease.ProbesSuffice` | `libs/pipeline/src/dependency-release.service.ts:301-339` | probing the open blockers outside cycles answers the classification as the whole board would |
| `DependencyRelease.ReleasePass.Process` | `libs/pipeline/src/dependency-release.service.ts:143-231` | one pass with other writers before every row: the requests of the clear rows, smaller priority first, unprioritized last, ties by key and then in query order; every ticket row brought in line with the gate, tasks for exactly the tickets left out of scope, and the cycle tickets of the waiting graph |
| `DependencyRelease.ReleasePass.ReleaseClear` | `libs/pipeline/src/dependency-release.service.ts:179-224` | the release loop: runs, refreshed rows and the collected waiting tickets |
| `DependencyRelease.ReleasePass.ClassifyWaiting` | `libs/pipeline/src/dependency-release.service.ts:289-351` | cycle before scope before dead end before waiting, for each waiting ticket once |
| `WorkerLock.ThreeRenewalsFitFrom300` | `apps/worker/src/worker-lock.service.ts:47-58` | three renewals fit into a time to live exactly from 300 ms on, and one only above 100 ms |
| `WorkerLock.OnlyTheOwnerTouchesTheLock` | `apps/worker/src/worker-lock.service.ts:85-96` | in every run an existing lock is extended or deleted only by the worker it names |
| `WorkerLock.AtMostOneConsumer` | `apps/worker/src/worker-lock.service.ts:186-236` | if renewals arrive before expiry, no two workers consume the queues at once, through crashes, lost answers, drains and stops |
| `WorkerLock.TimelyRunKeepsOwnersNamed` | `apps/worker/src/worker-lock.service.ts:186-236` | the invariant behind it: every owner is the one the key names, and nobody is about to lose it |
| `WorkerLock.ALateRenewalLetsTwoConsume` | `apps/worker/src/worker-lock.service.ts:213-229` | the assumption is needed: a holder asleep past its expiry consumes beside its successor |
| `WorkerLock.LostHolderStopsAtItsNextRenewal` | `apps/worker/src/worker-lock.service.ts:213-229` | a holder whose lock is gone stops consuming once its next renewal is answered, whatever the others do |
| `WorkerLock.AFaultLosesNothing` | `apps/worker/src/worker-lock.service.ts:170-184` | a lost request or answer changes no lock, starts or stops no consumption and is followed by another attempt one acquire interval later |
| `WorkerLock.DeadHolderIsReplacedInTime` | `apps/worker/src/worker-lock.service.ts:51-58` | without a live owner a contender that keeps trying sees the key taken over within the time to live plus one acquire interval |
| `WorkerLock.KeyExpiresWithinTtl` | `apps/worker/src/worker-lock.service.ts:186-220` | in every run the key expires within one time to live |
| `WorkerLock.World.SetIfAbsent` | `apps/worker/src/worker-lock.service.ts:190-190` | sets the key exactly when no unexpired one exists |
| `WorkerLock.World.CompareAndExtend` | `apps/worker/src/worker-lock.service.ts:85-89` | extends exactly the caller's own key |
| `WorkerLock.World.CompareAndDelete` | `apps/worker/src/worker-lock.service.ts:92-96` | deletes exactly the caller's own key |
| `WorkerLock.LockService.TryAcquire` | `apps/worker/src/worker-lock.service.ts:186-211` | an attempt with others between request and answer is two steps of the protocol; it holds exactly when no key existed, and the next timer is a renewal or an acquire interval from the answer |
| `WorkerLock.LockService.RenewLock` | `apps/worker/src/worker-lock.service.ts:213-236` | a renewal extends its own lock by one time to live and comes again one interval later, or stops the consumption when the lock is not its own any more |
| `WorkerLock.LockService.BeginDrain` | `apps/worker/src/worker-lock.bootstrap.ts:61-70` | shutdown begins by draining, the lock still held |
| `WorkerLock.LockService.Stop` | `apps/worker/src/worker-lock.service.ts:140-158` | the lock is given back only after the drain, and only if still its own |
| `WorkerLockBootstrap.ResumeAll` | `apps/worker/src/worker-lock.bootstrap.ts:72-95` | after the lock is won every worker that is not closing fetches jobs, however it was left |
| `WorkerLockBootstrap.OnlyResumeFirstBringsAllBack` | `apps/worker/src/worker-lock.bootstrap.ts:72-95` | over all workers the loop brings every open one back, while with its two questions swapped it would do so exactly when no open worker is both paused and out of its main loop |
| `WorkerLockBootstrap.PauseAll` | `apps/worker/src/worker-lock.bootstrap.ts:97-102` | after the lock is lost no worker fetches jobs |
| `RateLimiter.TokensAreConserved` | `libs/jira/src/rate-limiter.ts:68-85` | tokens stay between 0 and maxRps, and what is granted is paid for by what was there and what time brings in |
| `RateLimiter.WindowBound` | `libs/jira/src/rate-limiter.ts:68-85` | over any window of T seconds at most maxRps (1 + T) attempts are granted, across all callers and retries |
| `RateLimiter.WaitIsExact` | `libs/jira/src/rate-limiter.ts:75-84` | undisturbed, the computed wait is exactly what the next token takes |
| `RateLimiter.BurstIsTheWholeTokens` | `libs/jira/src/rate-limiter.ts:68-81` | at one instant exactly the first floor(tokens) attempts are granted |
| `RateLimiter.GrantsEverIffAtLeastOnePerSecond` | `libs/jira/src/rate-limiter.ts:36-41` | a limiter ever grants a token exactly when maxRps is at least 1 |
| `RateLimiter.Limiter.TryToken` | `libs/jira/src/rate-limiter.ts:68-81` | one round of the wait loop: the level rises with time up to maxRps, and one token is taken exactly when there is a whole one |
| `RateLimiter.Limiter.AcquireToken` | `libs/jira/src/rate-limiter.ts:75-85` | the caller takes the first token granted to it and returns only with one; the attempts of others in between are part of the log |
| `RateLimiter.Limiter.Schedule` | `libs/jira/src/rate-limiter.ts:43-66` | of all attempts made meanwhile exactly one is granted to the caller per call, the last of its turn; there are at most maxRetries + 1 calls, all but the last were rate limited, and a rate limit is passed on only after the last |
| `RateLimiter.Limiter.WindowOfTheLog` | `libs/jira/src/rate-limiter.ts:43-85` | the bound holds in every window of a limiter's life |
| `AgentKey.SlugIsJoinedWords` | `packages/contracts/src/agent-key.ts:26-31` | the three replacements compute the dash-join of the lower-cased text's words |
| `AgentKey.SlugIsShapedAndIdempotent` | `packages/contracts/src/agent-key.ts:26-31` | a slug is empty or alphanumeric groups joined by single dashes, and slugging it again changes nothing |
| `AgentKey.SlugKeepsLettersAndDigits` | `packages/contracts/src/agent-key.ts:26-31` | a slug has the ASCII letters and digits of the lower-cased text, all and in order, and single dashes between some of them |
| `AgentKey.WordsOfJoin` | `packages/contracts/src/agent-key.ts:26-31` | reading a slug back gives its words |
| `AgentKey.SlugOfTwo` | `packages/contracts/src/agent-key.ts:40-42` | the slug of two texts is the dash-join of their non-empty slugs |
| `AgentKey.KeyIsNeverEmpty` | `packages/contracts/src/agent-key.ts:40-46` | a key is the slugs of name and role, joined by a dash when neither is empty, and `agent` when both are; so the role-only fallback is never the one taken |
| `AgentKey.SuffixesDiffer` | `packages/contracts/src/agent-key.ts:59-61` | different suffixes give different keys |
| `AgentKey.OneMoreTried` | `packages/contracts/src/agent-key.ts:59-62` | the keys tried are all different, so finitely many taken keys run out |
| `AgentKey.EnsureUniqueAgentKey` | `packages/contracts/src/agent-key.ts:55-63` | the search ends for every finite set of taken keys, with the first free one, reserved keys counting as taken |
| `AgentKey.FirstFreeIsUnique` | `packages/contracts/src/agent-key.ts:48-54` | that key is determined by the base and the taken keys |
| `AgentKey.TeamKeys` | `libs/pipeline/src/setup-apply.service.ts:371-383` | a team's keys are pairwise distinct, disjoint from the workspace's and the reserved ones, each the first free one in turn |
| `AgentLinter.LintAgent` | `packages/contracts/src/agent-linter.ts:71-139` | a save is blocked exactly when a named status is missing from the board or another enabled agent has the same trigger and query scope; each error names its cause and cycles are only warned of |
| `AgentLinter.AbsentStatuses` | `packages/contracts/src/agent-linter.ts:82-95` | reports exactly the named statuses the board does not have |
| `AgentLinter.AcceptableMeans` | `packages/contracts/src/agent-linter.ts:71-139` | what a save needs, column by column: named statuses on the board, and no other enabled agent with the same trigger and the same trimmed query |
| `AgentRoster.TriggersStayDistinct` | `libs/pipeline/src/setup-apply.service.ts:198-259` | over any sequence of creations, updates naming the own workspace, deletions and accepted teams, no two enabled agents of a workspace share a trigger status with the same normalized query |
| `AgentRoster.UpdatesAreSafeIffTheyNameTheOwnWorkspace` | `apps/backend/src/dashboard/agents.controller.ts:180-198` | an update is linted against the workspace it names, so updates keep that property exactly when it is the agent's own |
| `AgentRoster.TeamRowsDoNotClash` | `libs/pipeline/src/setup-apply.service.ts:226-257` | each proposal clashes neither with the roster nor with the earlier ones |
| `AgentRoster.LintedAreTheWorkspaces` | `apps/backend/src/dashboard/agents.controller.ts:396-440` | the linter sees exactly the rows of the workspace |
| `AgentRoster.TeamAcceptableMeans` | `libs/pipeline/src/setup-apply.service.ts:144-262` | a team is acceptable exactly when its keys differ, its executors are enabled and every proposal passes the linter beside the earlier ones |
| `AgentRoster.AcceptableClashesWithNone` | `apps/backend/src/dashboard/agents.controller.ts:396-440` | passing the linter means clashing with no enabled row of the linted workspace |
| `AgentRoster.Roster.Create` | `apps/backend/src/dashboard/agents.controller.ts:86-111` | a creation that passes the linter adds one enabled agent with the columns of the request, a rejected one nothing |
| `AgentRoster.Roster.Update` | `apps/backend/src/dashboard/agents.controller.ts:122-198` | an update reaches only `enabled` of the orchestrator, and a linted whole of any other agent in place |
| `AgentRoster.Roster.Remove` | `apps/backend/src/dashboard/agents.controller.ts:200-235` | deletes an agent, disables one that has runs, refuses the orchestrator |
| `AgentRoster.Roster.AcceptTeam` | `libs/pipeline/src/setup-apply.service.ts:112-141` | a proposed team is added as a whole exactly when every member is acceptable |
| `AgentRoster.ValidateTeam` | `libs/pipeline/src/setup-apply.service.ts:144-262` | no issue is found exactly when every proposal has a key of its own, a usable executor and passes the linter beside the earlier ones |

## Left out

- RunHistory.OneActiveRunPerSlot: row ids are positions, rows are never deleted, and agent, executor and ticket rows are not
  looked up, so a trigger for a missing agent is not an outcome.
- RunStore.Store.FinalizeWithReport: the UPDATE alone; check rows are not modelled, and the question of a report is in `ReportEffects`,
  whose insert the other processes' contracts count among the writes of others.
- ExitPath.Worker.Finish: on the callback channel an exception of a report's inserts ends the attempt, and the queue's retry is
  another attempt; the outbox file is read once, before the exit path; cost and usage columns, breadcrumbs, the
  verdict attached to a cancelled run and the Jira side of `afterFinalize` are not rows of the model.
- OutboxReconcile.Reconciler.ReconcileEntry: whether a file parses and satisfies the report schema is given; a failing
  event insert is not modelled, and all file stems that are no run id share one warning entry.
- Resume.Resolver.Resolve: the lookup of the target agent is given by its answer; the queue entry and the Jira
  transition after a resume are not modelled.
- HumanTasks.HumanTaskService.CreateFromRequest: the Jira transition and comment after a park, and the timeline event of a
  duplicate, are not modelled.
- RoutingOverlap.OverlapIsSafeIffChecksAreExclusive: two handlers, both on the same target; what the marker says is not part of it.
- Pipeline.ReworkRunsAreBounded: one completion at a time, because count and insert are not one transaction; the maximum is
  fixed.
- CompletionHandler.Completions.OnRunFinished: Jira either works or fails for a whole call, agents and tickets are not
  missing, and the human tasks a completion opens are not modelled; `RoutingReplay` has the failure at each statement.
- RoutingReplay.OneDecisionOneRun: one handler at a time (two are in `RoutingOverlap`); an error of the trigger other than the unique violation counts as a crash at that statement.
- DependencyRelease.ReleasePass.Process: other writers change the run table during a pass but not the ticket rows, the board's
  answers are sets, and texts of the waiting state, early-release notes and warnings are left out; a ticket key names one ticket of the workspace.
- ReleaseOrder.CompareIsATotalOrder: strings compare by character, not by UTF-16 unit.
- CycleSearch.HubAndPrivateCyclesAreReturned: a condition on the graph alone that is enough in every order; the exact
  condition, `CompleteIff`, depends on the order the search reads in.
- DependencyGate.ClearMeaning: status and link names are lower-cased as far as ASCII letters are concerned; names in other
  alphabets that differ in case match in the program and not here.
- WorkerLock.AtMostOneConsumer: assumes renewals in time and no eviction; a lock expires at its expiry time, to the
  millisecond; jobs still active after a lost lock are not counted as consumption, as in the program.
- WorkerLock.DeadHolderIsReplacedInTime: the contender's timer fires when due and its answers take no time.
- WorkerLock.LockService.Stop: a stop while waiting or asking is a step of the protocol but has no method, and the contender
  key, a notice for logs, is left out.
- RateLimiter.WindowBound: real arithmetic and a clock that does not run back. The concurrency cap is left out: release
  and the woken waiter's increment are separate steps, so it bounds nothing at that granularity.
- RateLimiter.Limiter.Schedule: the length of the sleep after a rate limit is left to the caller's clock.
- AgentKey.SlugIsJoinedWords: lower-casing is exact on what can become an ASCII letter; other letters are separators either way.
- AgentKey.TeamKeys: the retry on a concurrent unique violation is left out.
- AgentRoster.TriggersStayDistinct: each operation is one step; keys, executors, secrets and repository scopes are not columns
  of the rows, and agents seeded from configuration are not among the operations.
- Workspaces' settings, pickup gates, concurrency caps and channel probes of the processors: they only delay a run.
- The watchdog and the user's cancel are writers of the run table (`FinalizeStatus`, `Cancel`), not processes of their own.
- Jira, queues, files, report validation, scrubbing, encryption and the dashboards: input, output or library code.
