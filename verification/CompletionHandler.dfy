/** `onRunFinished` as the processes call it: marker guard, the two completion branches, the marker. */
module CompletionHandler {
  import opened Wrappers
  import opened Runs
  import opened RunHistory
  import opened RunStore
  import opened Pipeline

  datatype Marker = WorkerDone(triage: Option<TriageDecision>) | OrchestratorDone(decision: Decision) | SetupDone(setup: Setup)

  datatype Setup = SetupFailed | SetupNeedsHuman | SetupApplied

  function SetupOf(s: Status): Setup {
    if s.Failed? || s.TimedOut? then SetupFailed else if s.AwaitingHuman? then SetupNeedsHuman else SetupApplied
  }

  /** A ticketless run is a setup run of an orchestrator; one of any other agent is skipped without a marker. */
  predicate Skipped(done: Completion, orchestrators: set<AgentId>)
    requires done.runId < |done.db.runs|
  {
    done.db.runs[done.runId].ticket.None? && !done.ByOrchestrator(orchestrators)
  }

  /** What the marker of a completion records. */
  function MarkerFor(done: Completion, orchestrators: set<AgentId>, max: nat): Marker
    requires done.runId < |done.db.runs| && !Skipped(done, orchestrators)
  {
    var r := done.db.runs[done.runId];
    if r.ticket.None? then SetupDone(SetupOf(r.status))
    else if done.ByOrchestrator(orchestrators) then
      OrchestratorDone(DecideRouting(done.db, done.runId, r.ticket.value, done.target, max).0)
    else if r.status.Failed? || r.status.TimedOut? then
      WorkerDone(Some(DecideTriage(done.db, r, r.ticket.value, done.orchestrator, max).0))
    else WorkerDone(None)
  }

  /** A worker's completion writes to Jira first; an orchestrator's only when it routes. */
  predicate NeedsJira(done: Completion, orchestrators: set<AgentId>, max: nat)
    requires done.runId < |done.db.runs|
  {
    var ticket := done.db.runs[done.runId].ticket;
    ticket.Some? && (done.ByOrchestrator(orchestrators) ==> PassesChecks(done.db, done.runId, ticket.value, done.target, max))
  }

  /**
   * What the marker records. A ticketless run is a setup run of an orchestrator, read by its status alone, and skipped
   * for any other agent; a worker's marker names a triage decision exactly when the worker failed or timed out, and
   * says that a triage run was started exactly when one was. Jira is needed by every worker's completion and by an
   * orchestrator's exactly when it is about to start a run.
   */
  lemma MarkerMeans(done: Completion, orchestrators: set<AgentId>, max: nat)
    requires IndexHolds(done.db.runs) && done.runId < |done.db.runs| && Terminal(done.db.runs[done.runId].status)
    ensures var r := done.db.runs[done.runId];
            && (Skipped(done, orchestrators) <==> r.ticket == None && r.agent !in orchestrators)
            && (!Skipped(done, orchestrators) ==>
                  var marker := MarkerFor(done, orchestrators, max);
                  && (marker.SetupDone? <==> r.ticket == None)
                  && (marker.OrchestratorDone? <==> r.ticket.Some? && r.agent in orchestrators)
                  && (marker == SetupDone(SetupFailed) <==> r.ticket == None && r.status in {Failed, TimedOut})
                  && (marker == SetupDone(SetupNeedsHuman) <==> r.ticket == None && r.status == AwaitingHuman)
                  && (marker.WorkerDone? ==>
                        && (marker.triage.Some? <==> r.status in {Failed, TimedOut})
                        && (marker.triage == Some(Triaged) <==> StartsARun(done, r.ticket.value, orchestrators, max))))
            && (NeedsJira(done, orchestrators, max) <==>
                  r.ticket.Some? && (r.agent in orchestrators ==> StartsARun(done, r.ticket.value, orchestrators, max)))
  {
    var r := done.db.runs[done.runId];
    if r.ticket.Some? {
      TriageStartsIff(done.db, r, r.ticket.value, done.orchestrator, max);
    }
  }

  class Completions {
    const store: Store
    /** The `jira_action` events, one per completed run. */
    var markers: map<RunId, Marker>

    constructor (store: Store)
      ensures this.store == store && markers == map[]
    {
      this.store := store;
      markers := map[];
    }

    /**
     * `orchestrators` are the orchestrator agents; `orchestrator` and `target` are what the lookups
     * answer for this workspace; `jiraWorks` is whether the Jira writes on the way go through.
     */
    method OnRunFinished(
        runId: RunId, orchestrators: set<AgentId>, orchestrator: Option<AgentId>, target: Option<AgentId>,
        max: nat, jiraWorks: bool)
      requires store.Valid()
      modifies this, store
      ensures store.Valid()
      // A marked run is never handled again, and an unfinished one is not handled yet.
      ensures runId in old(markers) || |old(store.runs)| <= runId || !Terminal(old(store.runs)[runId].status) ==>
        markers == old(markers) && store.Snapshot() == old(store.Snapshot())
      ensures runId < |old(store.runs)| && old(store.runs)[runId].status in {Queued, Running, Cancelled, Superseded} ==> markers == old(markers)
      ensures jiraWorks && runId < |old(store.runs)| && old(store.runs)[runId].status in {Succeeded, Failed, TimedOut, AwaitingHuman} ==>
        runId in markers || (old(store.runs)[runId].ticket == None && old(store.runs)[runId].agent !in orchestrators)
      // With Jira up, the handler's effect is the completion's, recorded once.
      ensures runId !in old(markers) && runId < |old(store.runs)| && Terminal(old(store.runs)[runId].status) && jiraWorks ==>
        && var done := Completion(old(store.Snapshot()), runId, orchestrator, target);
        && markers ==
             (if Skipped(done, orchestrators) then old(markers) else old(markers)[runId := MarkerFor(done, orchestrators, max)])
        && var ticket := old(store.runs)[runId].ticket;
        && store.Snapshot() == (if ticket == None then old(store.Snapshot()) else done.After(ticket.value, orchestrators, max))
        && |store.runs| == |old(store.runs)| + if ticket.Some? && StartsARun(done, ticket.value, orchestrators, max) then 1 else 0
      // With Jira down nothing is enqueued, so the replay finds the decision unexecuted.
      ensures !jiraWorks ==> store.Snapshot() == old(store.Snapshot())
      ensures runId !in old(markers) && runId < |old(store.runs)| && Terminal(old(store.runs)[runId].status) && !jiraWorks ==>
        && var done := Completion(old(store.Snapshot()), runId, orchestrator, target);
        && markers ==
             if Skipped(done, orchestrators) || NeedsJira(done, orchestrators, max) then old(markers)
             else old(markers)[runId := MarkerFor(done, orchestrators, max)]
    {
      if runId in markers {
        return;
      }
      if |store.runs| <= runId {
        return;
      }
      var run := store.runs[runId];
      if run.ticket.Some? && Terminal(run.status) {
        CompletionStartsARunIff(Completion(store.Snapshot(), runId, orchestrator, target), run.ticket.value, orchestrators, max);
      }
      if run.status != Succeeded && run.status != Failed && run.status != TimedOut && run.status != AwaitingHuman {
        return;
      }
      if run.ticket == None {
        if run.agent !in orchestrators {
          return;
        }
        var setup := SetupApplied;
        if run.status == Failed || run.status == TimedOut {
          setup := SetupFailed;
        } else if run.status == AwaitingHuman {
          setup := SetupNeedsHuman;
        }
        markers := markers[runId := SetupDone(setup)];
        return;
      }
      if run.agent in orchestrators {
        var decision := ProcessOrchestratorDecision(runId, run.ticket.value, target, max, jiraWorks);
        if decision.Some? {
          markers := markers[runId := OrchestratorDone(decision.value)];
        }
      } else if jiraWorks {
        var triage := None;
        if run.status == Failed || run.status == TimedOut {
          var decision := StartTriage(runId, run.ticket.value, orchestrator, max);
          triage := Some(decision);
        }
        markers := markers[runId := WorkerDone(triage)];
      }
    }

    method StartTriage(runId: RunId, ticket: TicketId, orchestrator: Option<AgentId>, max: nat) returns (decision: TriageDecision)
      requires store.Valid() && runId < |store.runs|
      modifies store
      ensures store.Valid()
      ensures (decision, store.Snapshot()) == DecideTriage(old(store.Snapshot()), old(store.runs)[runId], ticket, orchestrator, max)
      ensures var run := old(store.runs)[runId];
        if decision == Triaged
        then Adds(old(store.Snapshot()), store.Snapshot(), Run(run.workspace, Some(ticket), orchestrator.value, Queued, None, 1, Trigger(Triage, None, None)))
        else store.Snapshot() == old(store.Snapshot())
      ensures decision == Triaged <==>
        orchestrator.Some? && CycleIsLeft(old(store.Snapshot()), ticket, Manual, max) && !TicketIsBusy(old(store.Snapshot()), ticket, {})
    {
      TriageStartsIff(store.Snapshot(), store.runs[runId], ticket, orchestrator, max);
      if CycleCount(store.Snapshot(), ticket) >= max {
        return CycleLimit;
      }
      if orchestrator == None {
        return NoOrchestrator;
      }
      var run := store.runs[runId];
      ViolationIsDoubleBooking(store.Snapshot(), TriageWrite(run, ticket, orchestrator.value));
      var result := store.Trigger(run.workspace, Some(ticket), orchestrator.value, Trigger(Triage, None, None));
      decision := if result.Deduplicated? then TriageDeduplicated else Triaged;
    }

    /** No decision is returned when a Jira write throws on the way. */
    method ProcessOrchestratorDecision(runId: RunId, ticket: TicketId, target: Option<AgentId>, max: nat, jiraWorks: bool)
      returns (decision: Option<Decision>)
      requires store.Valid() && runId < |store.runs|
      modifies store
      ensures store.Valid()
      ensures jiraWorks ==>
        && decision.Some?
        && (decision.value, store.Snapshot()) == DecideRouting(old(store.Snapshot()), runId, ticket, target, max)
      ensures !jiraWorks ==>
        && store.Snapshot() == old(store.Snapshot())
        && decision ==
             if PassesChecks(store.Snapshot(), runId, ticket, target, max) then None
             else Some(DecideRouting(store.Snapshot(), runId, ticket, target, max).0)
      // A rework run is started exactly when the row, the target, the budget and the slot all allow it.
      ensures jiraWorks && old(store.runs)[runId].ticket == Some(ticket) && Terminal(old(store.runs)[runId].status) ==>
        var was, run := old(store.Snapshot()), old(store.runs)[runId];
        if && run.outcome == Some(Routed) && run.status == Succeeded && !DecisionIsUsed(was, runId, ticket) && target.Some?
           && CycleIsLeft(was, ticket, run.trigger.source, max) && !TicketIsBusy(was, ticket, {runId})
        then Adds(was, store.Snapshot(), Run(run.workspace, Some(ticket), target.value, Queued, None, 1, Trigger(Rework, Some(runId), run.trigger.humanTask)))
        else store.Snapshot() == was
    {
      ChecksMean(store.Snapshot(), runId, ticket, target, max);
      if store.runs[runId].ticket == Some(ticket) && Terminal(store.runs[runId].status) {
        RoutingAddsARunIff(store.Snapshot(), runId, ticket, target, max);
      }
      var run := store.runs[runId];
      if run.status == Failed || run.status == TimedOut {
        return Some(OrchestratorFailed);
      }
      if run.status == AwaitingHuman || run.outcome == Some(NeedsHuman) {
        return Some(ParkedOnHuman);
      }
      if run.outcome != Some(Routed) {
        return Some(OrchestratorInvalid);
      }
      if AlreadyExecuted(store.runs, ticket, runId) {
        return Some(Routing);
      }
      if target == None {
        return Some(OverrideInvalidTarget);
      }
      var cycles := CycleCount(store.Snapshot(), ticket);
      if !(cycles < max) && !(run.trigger.source == AnswerTriage && cycles < max + 1) {
        return Some(OverrideBudget);
      }
      if OtherActive(store.runs, ticket, runId) {
        return Some(OverrideActiveRun);
      }
      if !jiraWorks {
        return None;
      }
      ViolationIsDoubleBooking(store.Snapshot(), ReworkWrite(run, ticket, runId, target.value));
      var result := store.Trigger(run.workspace, Some(ticket), target.value, Trigger(Rework, Some(runId), run.trigger.humanTask));
      decision := Some(if result.Deduplicated? then OverrideActiveRun else Routing);
    }
  }
}
