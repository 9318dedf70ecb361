/**
 * Completion handling: when a failed worker run starts a triage run, when a routing decision starts
 * a rework run, how often either can happen, and what a crash in the middle leaves behind.
 */
module Pipeline {
  import opened Wrappers
  import opened Runs
  import opened RunHistory

  // ---------- the derived rework budget ----------

  predicate IsRework(r: Run, ticket: TicketId) {
    r.ticket == Some(ticket) && r.trigger.source.Rework?
  }

  /** The rework runs a ticket has had, whatever became of them. */
  function Reworks(runs: seq<Run>, ticket: TicketId): set<RunId> {
    set i | 0 <= i < |runs| && IsRework(runs[i], ticket)
  }

  function CycleCount(db: Db, ticket: TicketId): nat {
    |Reworks(db.runs, ticket)|
  }

  // ---------- decisions ----------

  datatype Decision =
    | Routing
    | OrchestratorFailed
    | ParkedOnHuman
    | OrchestratorInvalid
    | OverrideInvalidTarget
    | OverrideBudget
    | OverrideActiveRun

  datatype TriageDecision = CycleLimit | NoOrchestrator | Triaged | TriageDeduplicated

  /** A rework run of this decision exists, in whatever status. */
  predicate AlreadyExecuted(runs: seq<Run>, ticket: TicketId, deciding: RunId) {
    exists i | 0 <= i < |runs| :: runs[i].ticket == Some(ticket) && runs[i].trigger.decidingRun == Some(deciding)
  }

  predicate OtherActive(runs: seq<Run>, ticket: TicketId, except: RunId) {
    exists i | 0 <= i < |runs| :: i != except && runs[i].ticket == Some(ticket) && runs[i].Active()
  }

  /** The budget, with the one extra cycle a human answer grants. */
  predicate BudgetAllows(source: Source, cycles: nat, max: nat) {
    cycles < max || (source.AnswerTriage? && cycles < max + 1)
  }

  /** The verdict of the row alone: everything short of a routed success ends here. */
  function RowVerdict(r: Run): Option<Decision> {
    if r.status.Failed? || r.status.TimedOut? then Some(OrchestratorFailed)
    else if r.status.AwaitingHuman? || r.outcome == Some(NeedsHuman) then Some(ParkedOnHuman)
    else if r.outcome != Some(Routed) then Some(OrchestratorInvalid)
    else None
  }

  predicate Terminal(s: Status) {
    s.Succeeded? || s.Failed? || s.TimedOut? || s.AwaitingHuman?
  }

  function TriageWrite(r: Run, ticket: TicketId, orchestrator: AgentId): Write {
    InsertRun(r.workspace, Some(ticket), orchestrator, Trigger(Triage, None, None))
  }

  function ReworkWrite(r: Run, ticket: TicketId, runId: RunId, target: AgentId): Write {
    InsertRun(r.workspace, Some(ticket), target, Trigger(Rework, Some(runId), r.trigger.humanTask))
  }

  /** The triage decision for a terminally failed worker run, and the state it leaves. */
  function DecideTriage(db: Db, run: Run, ticket: TicketId, orchestrator: Option<AgentId>, max: nat): (TriageDecision, Db) {
    if CycleCount(db, ticket) >= max then (CycleLimit, db)
    else if orchestrator.None? then (NoOrchestrator, db)
    else
      var w := TriageWrite(run, ticket, orchestrator.value);
      if Violates(db, w) then (TriageDeduplicated, db) else (Triaged, Exec(db, w))
  }

  /** A run of the ticket carries this decision's id. */
  predicate DecisionIsUsed(db: Db, runId: RunId, ticket: TicketId) {
    exists i | 0 <= i < |db.runs| :: db.runs[i].ticket == Some(ticket) && db.runs[i].trigger.decidingRun == Some(runId)
  }

  predicate TicketIsBusy(db: Db, ticket: TicketId, except: set<RunId>) {
    exists i | 0 <= i < |db.runs| && i !in except ::
      db.runs[i].ticket == Some(ticket) && db.runs[i].status in {Queued, Running, AwaitingHuman}
  }

  /** The count is below the maximum, or at it on behalf of a human's answer. */
  predicate CycleIsLeft(db: Db, ticket: TicketId, source: Source, max: nat) {
    var count := |set i | 0 <= i < |db.runs| && db.runs[i].ticket == Some(ticket) && db.runs[i].trigger.source == Rework|;
    count < max || (count == max && source == AnswerTriage)
  }

  /** The run settled on a routing that no run of the ticket has carried out. */
  predicate RoutesAnew(db: Db, runId: RunId, ticket: TicketId)
    requires runId < |db.runs|
  {
    && db.runs[runId].outcome == Some(Routed) && db.runs[runId].status !in {Failed, TimedOut, AwaitingHuman}
    && !DecisionIsUsed(db, runId, ticket)
  }

  /** All that the handler asks of a routing decision before its Jira writes and the insert. */
  predicate PassesChecks(db: Db, runId: RunId, ticket: TicketId, target: Option<AgentId>, max: nat)
    requires runId < |db.runs|
  {
    && RoutesAnew(db, runId, ticket) && target.Some?
    && CycleIsLeft(db, ticket, db.runs[runId].trigger.source, max) && !TicketIsBusy(db, ticket, {runId})
  }

  /** The whole completion of a terminal orchestrator run in one uninterrupted step; `target` is the resolved agent. */
  function DecideRouting(db: Db, runId: RunId, ticket: TicketId, target: Option<AgentId>, max: nat): (Decision, Db)
    requires runId < |db.runs|
  {
    var r := db.runs[runId];
    if RowVerdict(r).Some? then (RowVerdict(r).value, db)
    else if AlreadyExecuted(db.runs, ticket, runId) then (Routing, db)
    else if target.None? then (OverrideInvalidTarget, db)
    else if !BudgetAllows(r.trigger.source, CycleCount(db, ticket), max) then (OverrideBudget, db)
    else if OtherActive(db.runs, ticket, runId) then (OverrideActiveRun, db)
    else
      var w := ReworkWrite(r, ticket, runId, target.value);
      if Violates(db, w) then (OverrideActiveRun, db) else (Routing, Exec(db, w))
  }

  // ---------- what the decisions come to ----------

  /** `after` is `before` with one more row, queued at its first attempt. */
  predicate Adds(before: Db, after: Db, row: Run) {
    after == before.(runs := before.runs + [row])
    && row.status == Queued && row.attempt == 1 && row.outcome == None
  }

  /**
   * A completed orchestrator run adds a run to its ticket exactly when it succeeded with a routing, no run of the ticket
   * carries its id, the target is valid, a cycle is left for it and no other run of the ticket is active; then it
   * adds the target's, naming the decision and passing the human task on.
   */
  lemma RoutingAddsARunIff(db: Db, runId: RunId, ticket: TicketId, target: Option<AgentId>, max: nat)
    requires IndexHolds(db.runs) && runId < |db.runs| && db.runs[runId].ticket == Some(ticket) && Terminal(db.runs[runId].status)
    ensures var r := db.runs[runId];
            var after := DecideRouting(db, runId, ticket, target, max).1;
            if && r.outcome == Some(Routed) && r.status == Succeeded && !DecisionIsUsed(db, runId, ticket) && target.Some?
               && CycleIsLeft(db, ticket, r.trigger.source, max) && !TicketIsBusy(db, ticket, {runId})
            then Adds(db, after, Run(r.workspace, Some(ticket), target.value, Queued, None, 1, Trigger(Rework, Some(runId), r.trigger.humanTask)))
            else after == db
  {
    ChecksMean(db, runId, ticket, target, max);
    if target.Some? {
      var w := ReworkWrite(db.runs[runId], ticket, runId, target.value);
      ViolationIsDoubleBooking(db, w);
      if PassesChecks(db, runId, ticket, target, max) {
        BusyMeans(db, ticket, {runId});
        assert !SlotTaken(db.runs, OfTicket(ticket));
      }
    }
  }

  lemma CountMeans(db: Db, ticket: TicketId)
    ensures CycleCount(db, ticket)
            == |set i | 0 <= i < |db.runs| && db.runs[i].ticket == Some(ticket) && db.runs[i].trigger.source == Rework|
  {
    assert Reworks(db.runs, ticket)
           == set i | 0 <= i < |db.runs| && db.runs[i].ticket == Some(ticket) && db.runs[i].trigger.source == Rework;
  }

  lemma BusyMeans(db: Db, ticket: TicketId, except: set<RunId>)
    ensures TicketIsBusy(db, ticket, except) <==>
            exists i | 0 <= i < |db.runs| && i !in except :: db.runs[i].Active() && db.runs[i].Slot() == OfTicket(ticket)
  {
    forall i | 0 <= i < |db.runs|
      ensures db.runs[i].Active() && db.runs[i].Slot() == OfTicket(ticket)
              <==> db.runs[i].ticket == Some(ticket) && db.runs[i].status in {Queued, Running, AwaitingHuman}
    {
    }
  }

  lemma ConflictMeans(db: Db, ticket: TicketId, except: RunId)
    ensures OtherActive(db.runs, ticket, except) <==> TicketIsBusy(db, ticket, {except})
  {
    forall i | 0 <= i < |db.runs|
      ensures i != except && db.runs[i].ticket == Some(ticket) && db.runs[i].Active()
              <==> i !in {except} && db.runs[i].ticket == Some(ticket) && db.runs[i].status in {Queued, Running, AwaitingHuman}
    {
    }
  }

  /** The checks of the code, one by one, against what they stand for. */
  lemma ChecksMean(db: Db, runId: RunId, ticket: TicketId, target: Option<AgentId>, max: nat)
    requires runId < |db.runs|
    ensures RowVerdict(db.runs[runId]).None? && !AlreadyExecuted(db.runs, ticket, runId) <==> RoutesAnew(db, runId, ticket)
    ensures BudgetAllows(db.runs[runId].trigger.source, CycleCount(db, ticket), max)
            <==> CycleIsLeft(db, ticket, db.runs[runId].trigger.source, max)
    ensures OtherActive(db.runs, ticket, runId) <==> TicketIsBusy(db, ticket, {runId})
    ensures AlreadyExecuted(db.runs, ticket, runId) <==> DecisionIsUsed(db, runId, ticket)
  {
    CountMeans(db, ticket);
    ConflictMeans(db, ticket, runId);
    assert AlreadyExecuted(db.runs, ticket, runId) <==> DecisionIsUsed(db, runId, ticket);
  }

  /** Which decision the handler comes to, for every completed orchestrator run. */
  lemma RoutingDecisionTable(db: Db, runId: RunId, ticket: TicketId, target: Option<AgentId>, max: nat)
    requires IndexHolds(db.runs) && runId < |db.runs| && db.runs[runId].ticket == Some(ticket) && Terminal(db.runs[runId].status)
    ensures var r := db.runs[runId];
            var decision := DecideRouting(db, runId, ticket, target, max).0;
            var anew := r.status == Succeeded && r.outcome == Some(Routed) && !DecisionIsUsed(db, runId, ticket);
            var left := CycleIsLeft(db, ticket, r.trigger.source, max);
            && (decision == OrchestratorFailed <==> r.status in {Failed, TimedOut})
            && (decision == ParkedOnHuman <==> r.status == AwaitingHuman || (r.status == Succeeded && r.outcome == Some(NeedsHuman)))
            && (decision == OrchestratorInvalid <==> r.status == Succeeded && r.outcome !in {Some(NeedsHuman), Some(Routed)})
            && (decision == OverrideInvalidTarget <==> anew && target == None)
            && (decision == OverrideBudget <==> anew && target.Some? && !left)
            && (decision == OverrideActiveRun <==> anew && target.Some? && left && TicketIsBusy(db, ticket, {runId}))
            && (decision == Routing <==>
                  && r.status == Succeeded && r.outcome == Some(Routed)
                  && (DecisionIsUsed(db, runId, ticket) || (target.Some? && left && !TicketIsBusy(db, ticket, {runId}))))
  {
    ChecksMean(db, runId, ticket, target, max);
    if target.Some? {
      ViolationIsDoubleBooking(db, ReworkWrite(db.runs[runId], ticket, runId, target.value));
      BusyMeans(db, ticket, {runId});
    }
  }

  /**
   * A worker run that failed or timed out starts one triage run exactly when the count is below the maximum, an
   * orchestrator exists and no run of the ticket is active; which of these fails first is the decision.
   */
  lemma TriageStartsIff(db: Db, run: Run, ticket: TicketId, orchestrator: Option<AgentId>, max: nat)
    requires IndexHolds(db.runs)
    ensures var (decision, after) := DecideTriage(db, run, ticket, orchestrator, max);
            var count := |set i | 0 <= i < |db.runs| && db.runs[i].ticket == Some(ticket) && db.runs[i].trigger.source == Rework|;
            && (decision == CycleLimit <==> count >= max)
            && (decision == NoOrchestrator <==> count < max && orchestrator == None)
            && (decision == TriageDeduplicated <==> count < max && orchestrator.Some? && TicketIsBusy(db, ticket, {}))
            && if count < max && orchestrator.Some? && !TicketIsBusy(db, ticket, {})
               then Adds(db, after, Run(run.workspace, Some(ticket), orchestrator.value, Queued, None, 1, Trigger(Triage, None, None)))
               else after == db
  {
    CountMeans(db, ticket);
    BusyMeans(db, ticket, {});
    if orchestrator.Some? {
      ViolationIsDoubleBooking(db, TriageWrite(run, ticket, orchestrator.value));
    }
  }

  // ---------- counting ----------

  lemma ReworkRowsStay(db: Db, w: Write, ticket: TicketId, i: RunId)
    requires i < |db.runs|
    ensures i in Reworks(Exec(db, w).runs, ticket) <==> i in Reworks(db.runs, ticket)
  {
    StepEvolves(db, w, i);
  }

  /** The only row a write can add is the next one. */
  lemma AddedReworkRow(db: Db, w: Write, ticket: TicketId, i: RunId)
    requires |db.runs| <= i
    ensures i in Reworks(Exec(db, w).runs, ticket) ==> i == |db.runs| && MintsRework(w)
    ensures w.InsertRun? && w.ticket == Some(ticket) && w.trigger.source.Rework? && !Violates(db, w) ==>
              |db.runs| in Reworks(Exec(db, w).runs, ticket)
  {
  }

  /** No write erases a rework run, and only an insert of one adds one. */
  lemma ReworksAfter(db: Db, w: Write, ticket: TicketId)
    ensures Reworks(db.runs, ticket) <= Reworks(Exec(db, w).runs, ticket)
    ensures CycleCount(db, ticket) <= CycleCount(Exec(db, w), ticket)
    ensures w.InsertRun? && w.ticket == Some(ticket) && w.trigger.source.Rework? && !Violates(db, w) ==>
              CycleCount(Exec(db, w), ticket) == CycleCount(db, ticket) + 1
    ensures !MintsRework(w) ==> CycleCount(Exec(db, w), ticket) == CycleCount(db, ticket)
  {
    var before, after := Reworks(db.runs, ticket), Reworks(Exec(db, w).runs, ticket);
    forall i: RunId
      ensures i < |db.runs| ==> (i in after <==> i in before)
      ensures i >= |db.runs| ==> i !in before && (i in after ==> i == |db.runs| && MintsRework(w))
    {
      if i < |db.runs| {
        ReworkRowsStay(db, w, ticket, i);
      } else {
        AddedReworkRow(db, w, ticket, i);
      }
    }
    AddedReworkRow(db, w, ticket, |db.runs|);
    CountsFollow(before, after, |db.runs|);
  }

  lemma CountsFollow(before: set<RunId>, after: set<RunId>, added: RunId)
    requires forall i: RunId | i != added :: i in after <==> i in before
    requires added !in before
    ensures before <= after && |before| <= |after|
    ensures added in after ==> |after| == |before| + 1
    ensures added !in after ==> |after| == |before|
  {
    if added in after {
      assert after == before + {added};
    } else {
      assert after == before;
    }
  }

  predicate MintsRework(w: Write) {
    match w
    case InsertRun(_, _, _, e) => e.source.Rework?
    case ResumeRun(_, _, _, e) => e.source.Rework?
    case _ => false
  }

  lemma {:induction false} CyclesNeverFall(db: Db, ws: seq<Write>, ticket: TicketId)
    ensures CycleCount(db, ticket) <= CycleCount(History(db, ws), ticket)
    decreases |ws|
  {
    if ws != [] {
      ReworksAfter(db, ws[0], ticket);
      CyclesNeverFall(Exec(db, ws[0]), ws[1..], ticket);
    }
  }

  // ---------- the budget over whole histories ----------

  /** One orchestrator completion handled without a competing completion, or any write of anyone else. */
  datatype Happening =
    | Completed(runId: RunId, target: Option<AgentId>)
    | Foreign(write: Write)

  /** Rework runs are minted by completions only. */
  predicate Permitted(db: Db, h: Happening) {
    match h
    case Completed(id, _) => id < |db.runs|
    case Foreign(w) => !MintsRework(w)
  }

  function Handle(db: Db, h: Happening, max: nat): Db
    requires Permitted(db, h)
  {
    match h
    case Foreign(w) => Exec(db, w)
    case Completed(id, target) =>
      if db.runs[id].ticket.Some? && Terminal(db.runs[id].status)
      then DecideRouting(db, id, db.runs[id].ticket.value, target, max).1
      else db
  }

  predicate PermittedAll(db: Db, hs: seq<Happening>, max: nat)
    decreases |hs|
  {
    hs == [] || (Permitted(db, hs[0]) && PermittedAll(Handle(db, hs[0], max), hs[1..], max))
  }

  function HandleAll(db: Db, hs: seq<Happening>, max: nat): Db
    requires PermittedAll(db, hs, max)
    decreases |hs|
  {
    if hs == [] then db else HandleAll(Handle(db, hs[0], max), hs[1..], max)
  }

  predicate HumanGranted(runs: seq<Run>, ticket: TicketId) {
    exists i | 0 <= i < |runs| :: runs[i].ticket == Some(ticket) && runs[i].trigger.source.AnswerTriage?
  }

  /** How far one happening can push the count of one ticket. */
  lemma HandleSpendsWithinBudget(db: Db, h: Happening, max: nat, ticket: TicketId)
    requires Permitted(db, h)
    ensures var cap := if HumanGranted(db.runs, ticket) then max + 1 else max;
            var before, after := CycleCount(db, ticket), CycleCount(Handle(db, h, max), ticket);
            before <= after <= (if before < cap then before + 1 else before)
    ensures HumanGranted(db.runs, ticket) ==> HumanGranted(Handle(db, h, max).runs, ticket)
  {
    match h {
      case Foreign(w) =>
        ReworksAfter(db, w, ticket);
        GrantsStay(db, w, ticket);
      case Completed(id, target) =>
        if Handle(db, h, max) != db {
          var r := db.runs[id];
          var own := r.ticket.value;
          var w := ReworkWrite(r, own, id, target.value);
          ReworksAfter(db, w, own);
          if own != ticket {
            OtherTicketUntouched(db, w, ticket);
          }
          GrantsStay(db, w, ticket);
        }
    }
  }

  lemma GrantsStay(db: Db, w: Write, ticket: TicketId)
    ensures HumanGranted(db.runs, ticket) ==> HumanGranted(Exec(db, w).runs, ticket)
  {
    if i :| 0 <= i < |db.runs| && db.runs[i].ticket == Some(ticket) && db.runs[i].trigger.source.AnswerTriage? {
      StepEvolves(db, w, i);
      assert Exec(db, w).runs[i].trigger == db.runs[i].trigger;
    }
  }

  lemma OtherTicketUntouched(db: Db, w: Write, ticket: TicketId)
    requires w.InsertRun? && w.ticket != Some(ticket)
    ensures CycleCount(Exec(db, w), ticket) == CycleCount(db, ticket)
  {
    assert Reworks(Exec(db, w).runs, ticket) == Reworks(db.runs, ticket);
  }

  /**
   * Over any history with completions handled one at a time, a ticket that starts within the
   * budget has at most `max + 1` rework runs, and at most `max` unless some run on it was the
   * re-triage of a human answer.
   */
  lemma {:induction false} ReworkRunsAreBounded(db: Db, hs: seq<Happening>, max: nat, ticket: TicketId)
    requires PermittedAll(db, hs, max)
    requires CycleCount(db, ticket) <= if HumanGranted(db.runs, ticket) then max + 1 else max
    ensures var end := HandleAll(db, hs, max);
            CycleCount(end, ticket) <= if HumanGranted(end.runs, ticket) then max + 1 else max
    decreases |hs|
  {
    if hs != [] {
      HandleSpendsWithinBudget(db, hs[0], max, ticket);
      ReworkRunsAreBounded(Handle(db, hs[0], max), hs[1..], max, ticket);
    }
  }

  // ---------- the bound is reached ----------

  /** No run of the ticket is active but, with `open`, the newest row; a decision names an earlier run. */
  predicate Idling(db: Db, ticket: TicketId, open: bool) {
    && IndexHolds(db.runs)
    && (open ==> db.runs != [] && db.runs[|db.runs| - 1].Active() && db.runs[|db.runs| - 1].ticket == Some(ticket))
    && (forall i | 0 <= i < |db.runs| && db.runs[i].ticket == Some(ticket) && db.runs[i].Active() :: open && i == |db.runs| - 1)
    && forall i | 0 <= i < |db.runs| && db.runs[i].trigger.decidingRun.Some? :: db.runs[i].trigger.decidingRun.value < i
  }

  lemma OrchestratorStarts(db: Db, ticket: TicketId, agent: AgentId)
    requires Idling(db, ticket, false)
    ensures var w := InsertRun(0, Some(ticket), agent, Trigger(Triage, None, None));
            && Idling(Exec(db, w), ticket, true) && CycleCount(Exec(db, w), ticket) == CycleCount(db, ticket)
            && Exec(db, w).runs == db.runs + [NewRun(0, Some(ticket), agent, 1, Trigger(Triage, None, None))]
  {
    var w := InsertRun(0, Some(ticket), agent, Trigger(Triage, None, None));
    ViolationIsDoubleBooking(db, w);
    assert !SlotTaken(db.runs, OfTicket(ticket));
    ReworksAfter(db, w, ticket);
  }

  lemma NewestIsFinalized(db: Db, ticket: TicketId, update: Update)
    requires Idling(db, ticket, true)
    requires update.FinalizeWithReport? || update == FinalizeStatus(Failed)
    ensures var last := |db.runs| - 1;
            var w := UpdateRun(last, update);
            && Exec(db, w).runs == db.runs[last := update.Apply(db.runs[last])]
            && CycleCount(Exec(db, w), ticket) == CycleCount(db, ticket)
            && Idling(Exec(db, w), ticket, update.Apply(db.runs[last]).Active())
  {
    var w := UpdateRun(|db.runs| - 1, update);
    ViolationIsDoubleBooking(db, w);
    ReworksAfter(db, w, ticket);
  }

  lemma HumanAnswers(db: Db, ticket: TicketId, agent: AgentId)
    requires Idling(db, ticket, true) && db.runs[|db.runs| - 1].status.AwaitingHuman?
    ensures var w := ResumeRun(|db.runs| - 1, agent, 2, Trigger(AnswerTriage, None, None));
            && Idling(Exec(db, w), ticket, true) && CycleCount(Exec(db, w), ticket) == CycleCount(db, ticket)
            && |Exec(db, w).runs| == |db.runs| + 1 && Exec(db, w).runs[|db.runs|].trigger.source == AnswerTriage
  {
    var w := ResumeRun(|db.runs| - 1, agent, 2, Trigger(AnswerTriage, None, None));
    ViolationIsDoubleBooking(db, w);
    ReworksAfter(db, w, ticket);
  }

  lemma NewestRoutes(db: Db, ticket: TicketId, target: AgentId, max: nat)
    requires Idling(db, ticket, false) && db.runs != []
    requires var r := db.runs[|db.runs| - 1];
             r.ticket == Some(ticket) && r.status == Succeeded && r.outcome == Some(Routed) && CycleIsLeft(db, ticket, r.trigger.source, max)
    ensures var next := Handle(db, Completed(|db.runs| - 1, Some(target)), max);
            Idling(next, ticket, true) && CycleCount(next, ticket) == CycleCount(db, ticket) + 1
  {
    var last := |db.runs| - 1;
    RoutingAddsARunIff(db, last, ticket, Some(target), max);
    assert !DecisionIsUsed(db, last, ticket);
    assert !TicketIsBusy(db, ticket, {last});
    var w := ReworkWrite(db.runs[last], ticket, last, target);
    ViolationIsDoubleBooking(db, w);
    assert !SlotTaken(db.runs, OfTicket(ticket));
    ReworksAfter(db, w, ticket);
  }

  lemma {:induction false} OneMore(db: Db, hs: seq<Happening>, h: Happening, max: nat)
    requires PermittedAll(db, hs, max) && Permitted(HandleAll(db, hs, max), h)
    ensures PermittedAll(db, hs + [h], max) && HandleAll(db, hs + [h], max) == Handle(HandleAll(db, hs, max), h, max)
    decreases |hs|
  {
    if hs == [] {
      assert [] + [h] == [h] && [h][1..] == [];
      assert HandleAll(db, [h], max) == HandleAll(Handle(db, h, max), [], max);
    } else {
      assert (hs + [h])[1..] == hs[1..] + [h];
      OneMore(Handle(db, hs[0], max), hs[1..], h, max);
    }
  }

  /** From an idle ticket: a triage run, on demand parked and answered, routes to a worker, whose run fails. */
  lemma AnotherCycle(db: Db, hs: seq<Happening>, ticket: TicketId, max: nat, answered: bool) returns (more: seq<Happening>)
    requires PermittedAll(db, hs, max) && Idling(HandleAll(db, hs, max), ticket, false)
    requires CycleIsLeft(HandleAll(db, hs, max), ticket, if answered then AnswerTriage else Triage, max)
    ensures PermittedAll(db, more, max) && Idling(HandleAll(db, more, max), ticket, false)
    ensures CycleCount(HandleAll(db, more, max), ticket) == CycleCount(HandleAll(db, hs, max), ticket) + 1
  {
    var at := HandleAll(db, hs, max);
    CountMeans(at, ticket);
    OrchestratorStarts(at, ticket, 0);
    var started := Foreign(InsertRun(0, Some(ticket), 0, Trigger(Triage, None, None)));
    OneMore(db, hs, started, max);
    more, at := hs + [started], Handle(at, started, max);
    if answered {
      var parked := Foreign(UpdateRun(|at.runs| - 1, FinalizeWithReport(NeedsHuman)));
      NewestIsFinalized(at, ticket, FinalizeWithReport(NeedsHuman));
      OneMore(db, more, parked, max);
      more, at := more + [parked], Handle(at, parked, max);
      var resumed := Foreign(ResumeRun(|at.runs| - 1, 0, 2, Trigger(AnswerTriage, None, None)));
      HumanAnswers(at, ticket, 0);
      OneMore(db, more, resumed, max);
      more, at := more + [resumed], Handle(at, resumed, max);
    }
    CountMeans(at, ticket);
    more := RoutedAndFailed(db, more, ticket, max);
  }

  lemma RoutedAndFailed(db: Db, hs: seq<Happening>, ticket: TicketId, max: nat) returns (more: seq<Happening>)
    requires PermittedAll(db, hs, max) && Idling(HandleAll(db, hs, max), ticket, true)
    requires var at := HandleAll(db, hs, max); CycleIsLeft(at, ticket, at.runs[|at.runs| - 1].trigger.source, max)
    ensures PermittedAll(db, more, max) && Idling(HandleAll(db, more, max), ticket, false)
    ensures CycleCount(HandleAll(db, more, max), ticket) == CycleCount(HandleAll(db, hs, max), ticket) + 1
  {
    var at := HandleAll(db, hs, max);
    CountMeans(at, ticket);
    var routed := Foreign(UpdateRun(|at.runs| - 1, FinalizeWithReport(Routed)));
    NewestIsFinalized(at, ticket, FinalizeWithReport(Routed));
    OneMore(db, hs, routed, max);
    more, at := hs + [routed], Handle(at, routed, max);
    CountMeans(at, ticket);
    var completed := Completed(|at.runs| - 1, Some(1));
    NewestRoutes(at, ticket, 1, max);
    OneMore(db, more, completed, max);
    more, at := more + [completed], Handle(at, completed, max);
    var failed := Foreign(UpdateRun(|at.runs| - 1, FinalizeStatus(Failed)));
    NewestIsFinalized(at, ticket, FinalizeStatus(Failed));
    OneMore(db, more, failed, max);
    more := more + [failed];
  }

  /** Some history without overlapping completions gives a ticket `n` rework runs, from the empty tables. */
  ghost predicate Reaches(n: nat, ticket: TicketId, max: nat) {
    exists hs :: PermittedAll(Db([], []), hs, max) && CycleCount(HandleAll(Db([], []), hs, max), ticket) == n
  }

  lemma {:induction false} Cycles(n: nat, ticket: TicketId, max: nat) returns (hs: seq<Happening>)
    requires n <= max
    ensures PermittedAll(Db([], []), hs, max) && Idling(HandleAll(Db([], []), hs, max), ticket, false)
    ensures CycleCount(HandleAll(Db([], []), hs, max), ticket) == n
  {
    if n == 0 {
      hs := [];
      assert Reworks([], ticket) == {};
    } else {
      hs := Cycles(n - 1, ticket, max);
      CountMeans(HandleAll(Db([], []), hs, max), ticket);
      hs := AnotherCycle(Db([], []), hs, ticket, max, false);
    }
  }

  /** With any maximum every count up to it, and one more on a human's answer, is reached; that bound is exact. */
  lemma EveryCountIsReachedIff(n: nat, ticket: TicketId, max: nat)
    ensures Reaches(n, ticket, max) <==> n <= max + 1
  {
    var empty := Db([], []);
    assert Reworks([], ticket) == {};
    if n <= max + 1 {
      var hs := Cycles(if n == max + 1 then max else n, ticket, max);
      if n == max + 1 {
        CountMeans(HandleAll(empty, hs, max), ticket);
        hs := AnotherCycle(empty, hs, ticket, max, true);
      }
    }
    if hs :| PermittedAll(empty, hs, max) && CycleCount(HandleAll(empty, hs, max), ticket) == n {
      ReworkRunsAreBounded(empty, hs, max, ticket);
    }
  }

  // ---------- the automatic chain ----------

  /** A completion: the run that finished, the state its handler sees, and what the workspace offers it. */
  datatype Completion = Completion(db: Db, runId: RunId, orchestrator: Option<AgentId>, target: Option<AgentId>)
  {
    predicate WellFormed(ticket: TicketId) {
      runId < |db.runs| && db.runs[runId].ticket == Some(ticket) && Terminal(db.runs[runId].status)
    }

    predicate ByOrchestrator(orchestrators: set<AgentId>)
      requires runId < |db.runs|
    {
      db.runs[runId].agent in orchestrators
    }

    /** The state after the handler; a worker's success starts nothing. */
    function After(ticket: TicketId, orchestrators: set<AgentId>, max: nat): Db
      requires WellFormed(ticket)
    {
      var r := db.runs[runId];
      if ByOrchestrator(orchestrators) then DecideRouting(db, runId, ticket, target, max).1
      else if r.status.Failed? || r.status.TimedOut? then DecideTriage(db, r, ticket, orchestrator, max).1
      else db
    }

    /** The lookups return what they promise: a triager is an orchestrator, a routing target is not. */
    predicate LookupsAreSound(orchestrators: set<AgentId>) {
      && (orchestrator.Some? ==> orchestrator.value in orchestrators)
      && (target.Some? ==> target.value !in orchestrators)
    }
  }

  /** `b` completes the run that the handler of `a` started, any amount of other activity later. */
  ghost predicate Continues(a: Completion, b: Completion, ticket: TicketId, orchestrators: set<AgentId>, max: nat) {
    && a.WellFormed(ticket) && b.WellFormed(ticket) && a.LookupsAreSound(orchestrators)
    && b.runId == |a.db.runs| && |a.After(ticket, orchestrators, max).runs| == |a.db.runs| + 1
    && exists ws :: b.db == History(a.After(ticket, orchestrators, max), ws)
  }

  ghost predicate AutomaticChain(chain: seq<Completion>, ticket: TicketId, orchestrators: set<AgentId>, max: nat) {
    && (forall i | 0 <= i < |chain| :: chain[i].WellFormed(ticket))
    && (forall i, j | 0 <= i < |chain| && j == i + 1 < |chain| :: Continues(chain[i], chain[j], ticket, orchestrators, max))
  }

  /** Twice the cycles left, and one more while a worker run is current. */
  function Measure(c: Completion, ticket: TicketId, orchestrators: set<AgentId>, max: nat): int
    requires c.WellFormed(ticket)
  {
    2 * (max - CycleCount(c.db, ticket)) + if c.ByOrchestrator(orchestrators) then 0 else 1
  }

  /** Every automatic continuation spends some of the measure. */
  lemma ContinuationDescends(a: Completion, b: Completion, ticket: TicketId, orchestrators: set<AgentId>, max: nat)
    requires Continues(a, b, ticket, orchestrators, max)
    requires a.ByOrchestrator(orchestrators) ==> !a.db.runs[a.runId].trigger.source.AnswerTriage?
    ensures Measure(b, ticket, orchestrators, max) < Measure(a, ticket, orchestrators, max)
    ensures Measure(a, ticket, orchestrators, max) >= 2
    ensures b.ByOrchestrator(orchestrators) ==> b.db.runs[b.runId].trigger.source.Triage?
  {
    var next := a.After(ticket, orchestrators, max);
    var ws :| b.db == History(next, ws);
    var r := a.db.runs[a.runId];
    CyclesNeverFall(next, ws, ticket);
    HistoryEvolves(next, ws, b.runId);
    if a.ByOrchestrator(orchestrators) {
      ReworksAfter(a.db, ReworkWrite(r, ticket, a.runId, a.target.value), ticket);
    } else {
      ReworksAfter(a.db, TriageWrite(r, ticket, a.orchestrator.value), ticket);
    }
  }

  /**
   * The fail, triage, rework chain ends by itself: from a worker run that finds `c` cycles used it
   * has at most `2 * (max - c) + 1` runs, whatever else happens on the ticket meanwhile.
   */
  lemma {:induction false} AutomaticChainIsShort(chain: seq<Completion>, ticket: TicketId, orchestrators: set<AgentId>, max: nat)
    requires AutomaticChain(chain, ticket, orchestrators, max) && chain != []
    requires chain[0].ByOrchestrator(orchestrators) ==> !chain[0].db.runs[chain[0].runId].trigger.source.AnswerTriage?
    ensures |chain| == 1 || |chain| <= Measure(chain[0], ticket, orchestrators, max)
    decreases |chain|
  {
    if |chain| > 1 {
      ContinuationDescends(chain[0], chain[1], ticket, orchestrators, max);
      AutomaticChainIsShort(chain[1..], ticket, orchestrators, max);
    }
  }

  /** What a completion must be to start a run, and to let a chain go on after it. */
  predicate StartsARun(c: Completion, ticket: TicketId, orchestrators: set<AgentId>, max: nat)
    requires c.WellFormed(ticket)
  {
    var r := c.db.runs[c.runId];
    if c.ByOrchestrator(orchestrators) then
      && r.status == Succeeded && r.outcome == Some(Routed) && !DecisionIsUsed(c.db, c.runId, ticket) && c.target.Some?
      && CycleIsLeft(c.db, ticket, r.trigger.source, max) && !TicketIsBusy(c.db, ticket, {c.runId})
    else
      && r.status in {Failed, TimedOut} && CycleIsLeft(c.db, ticket, Manual, max) && c.orchestrator.Some?
      && !TicketIsBusy(c.db, ticket, {})
  }

  /** A completion adds a run exactly then. */
  lemma CompletionStartsARunIff(c: Completion, ticket: TicketId, orchestrators: set<AgentId>, max: nat)
    requires c.WellFormed(ticket) && IndexHolds(c.db.runs)
    ensures |c.After(ticket, orchestrators, max).runs| == |c.db.runs| + (if StartsARun(c, ticket, orchestrators, max) then 1 else 0)
  {
    if c.ByOrchestrator(orchestrators) {
      RoutingAddsARunIff(c.db, c.runId, ticket, c.target, max);
    } else {
      TriageStartsIff(c.db, c.db.runs[c.runId], ticket, c.orchestrator, max);
    }
  }

  lemma AddingShowsTheIndex(c: Completion, ticket: TicketId, orchestrators: set<AgentId>, max: nat)
    requires c.WellFormed(ticket) && |c.After(ticket, orchestrators, max).runs| > |c.db.runs|
    ensures IndexHolds(c.db.runs)
  {
    var after := c.After(ticket, orchestrators, max).runs;
    assert IndexHolds(after);
    assert forall i | 0 <= i < |c.db.runs| :: after[i] == c.db.runs[i];
  }

  lemma ContinuationNeedsAStart(a: Completion, b: Completion, ticket: TicketId, orchestrators: set<AgentId>, max: nat)
    requires Continues(a, b, ticket, orchestrators, max)
    ensures StartsARun(a, ticket, orchestrators, max)
    ensures b.ByOrchestrator(orchestrators) <==> !a.ByOrchestrator(orchestrators)
  {
    var next := a.After(ticket, orchestrators, max);
    var ws :| b.db == History(next, ws);
    HistoryEvolves(next, ws, b.runId);
    AddingShowsTheIndex(a, ticket, orchestrators, max);
    CompletionStartsARunIff(a, ticket, orchestrators, max);
  }

  /**
   * In every automatic chain worker and orchestrator runs alternate, and every completion but the last is a worker
   * failing within the budget or an orchestrator routing to a valid target, on a free ticket. So a failed,
   * parked or unrouted orchestrator completion, or a worker's success, is the last one.
   */
  lemma ChainAlternatesAndEndsUnrouted(chain: seq<Completion>, ticket: TicketId, orchestrators: set<AgentId>, max: nat)
    requires AutomaticChain(chain, ticket, orchestrators, max)
    ensures forall i | 0 <= i < |chain| - 1 :: StartsARun(chain[i], ticket, orchestrators, max)
    ensures forall i, j | 0 <= i < |chain| && j == i + 1 < |chain| ::
              chain[j].ByOrchestrator(orchestrators) <==> !chain[i].ByOrchestrator(orchestrators)
    ensures forall i | 0 <= i < |chain| && chain[i].ByOrchestrator(orchestrators) && chain[i].db.runs[chain[i].runId].outcome != Some(Routed) ::
              i == |chain| - 1
  {
    forall i, j | 0 <= i < |chain| && j == i + 1 < |chain|
      ensures StartsARun(chain[i], ticket, orchestrators, max)
      ensures chain[j].ByOrchestrator(orchestrators) <==> !chain[i].ByOrchestrator(orchestrators)
    {
      ContinuationNeedsAStart(chain[i], chain[j], ticket, orchestrators, max);
    }
    forall i | 0 <= i < |chain| - 1
      ensures StartsARun(chain[i], ticket, orchestrators, max)
    {
      ContinuationNeedsAStart(chain[i], chain[i + 1], ticket, orchestrators, max);
    }
  }
}
