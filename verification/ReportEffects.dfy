/**
 * Applying a report: the guarded update and, for a report that needs a human, the question it opens in
 * later statements; and which runs a report parks without a question anybody could answer.
 */
module ReportEffects {
  import opened Wrappers
  import opened Runs
  import opened RunHistory
  import opened RunStore
  import opened HumanTasks

  /** The live path and the periodic reconciler write the report under different guards. */
  function ReportUpdate(report: Outcome, wide: bool): Update {
    if wide then ReconcileWithReport(report) else FinalizeWithReport(report)
  }

  /** The update takes effect. */
  predicate Flips(db: Db, runId: RunId, report: Outcome, wide: bool) {
    && runId < |db.runs| && ReportUpdate(report, wide).Admits(db.runs[runId])
    && !WouldDoubleBook(db, UpdateRun(runId, ReportUpdate(report, wide)))
  }

  /**
   * The state a report leaves. `others` commits before the update, before the look for an open question and
   * before the insert; with `crashed` the process dies before the insert.
   */
  function Applied(db: Db, runId: RunId, report: Outcome, wide: bool, others: seq<seq<Write>>, crashed: bool): Db
    requires |others| == 3
  {
    var at := History(db, others[0]);
    var updated := Exec(at, UpdateRun(runId, ReportUpdate(report, wide)));
    if !Flips(at, runId, report, wide) || !report.NeedsHuman? then updated
    else
      var checked := History(updated, others[1]);
      if HasOpenTask(checked.tasks, runId, true) then checked
      else
        var last := History(checked, others[2]);
        if crashed then last else Exec(last, Question(at.runs[runId], runId, true))
  }

  /** The others neither close a task nor ask a blocking question of this run. */
  predicate LeaveQuestionsAlone(ws: seq<Write>, runId: RunId) {
    forall i | 0 <= i < |ws| :: !Closes(ws[i]) && !Asks(ws[i], runId, true)
  }

  lemma UpdateKeepsTasks(db: Db, runId: RunId, u: Update)
    ensures Exec(db, UpdateRun(runId, u)).tasks == db.tasks
  {
  }

  /**
   * When a run that a report has parked has a question open, others leaving questions alone: exactly when one
   * was open before, or the report needs a human and the process lived to insert its question. So a team
   * report that reaches this path, and a crash between update and insert, park a run nobody can answer for.
   */
  lemma ParkedRunHasAQuestionIff(db: Db, runId: RunId, report: Outcome, wide: bool, others: seq<seq<Write>>, crashed: bool)
    requires |others| == 3 && IndexHolds(db.runs)
    requires Flips(History(db, others[0]), runId, report, wide) && ReportStatus(report).AwaitingHuman?
    requires LeaveQuestionsAlone(others[1], runId) && LeaveQuestionsAlone(others[2], runId)
    ensures HasOpenTask(Applied(db, runId, report, wide, others, crashed).tasks, runId, true)
            <==> HasOpenTask(History(db, others[0]).tasks, runId, true) || (report.NeedsHuman? && !crashed)
  {
    var at := History(db, others[0]);
    var updated := Exec(at, UpdateRun(runId, ReportUpdate(report, wide)));
    UpdateKeepsTasks(at, runId, ReportUpdate(report, wide));
    if report.NeedsHuman? {
      var checked := History(updated, others[1]);
      if HasOpenTask(updated.tasks, runId, true) {
        QuestionStaysOpen(updated, others[1], runId, true);
      } else {
        NobodyElseAsks(updated, others[1], runId, true);
        NobodyElseAsks(checked, others[2], runId, true);
        var last := History(checked, others[2]);
        var question := Question(at.runs[runId], runId, true);
        IndexSurvives(db, others[0]);
        IndexSurvives(updated, others[1]);
        IndexSurvives(checked, others[2]);
        ViolationIsDoubleBooking(last, question);
        assert Exec(last, question).tasks[|last.tasks|] == question.task;
      }
    }
  }

  /** What the update itself does with each report: exactly which ones make the run succeed, fail and wait for a human. */
  lemma ReportDecides(db: Db, runId: RunId, report: Outcome, wide: bool)
    requires IndexHolds(db.runs) && Flips(db, runId, report, wide)
    ensures var after := Exec(db, UpdateRun(runId, ReportUpdate(report, wide)));
            && runId < |after.runs| && after.runs[runId].outcome == Some(report)
            && (after.runs[runId].status.Succeeded? <==> report.Success? || report.Routed?)
            && (after.runs[runId].status.Failed? <==> report.Failure?)
            && (after.runs[runId].status.AwaitingHuman? <==> report.NeedsHuman? || report.Team?)
  {
    ViolationIsDoubleBooking(db, UpdateRun(runId, ReportUpdate(report, wide)));
  }

  /** A report on its own asks one question, on the run's ticket, exactly when it takes effect, needs a human, and none is open. */
  lemma UndisturbedReportAsksIff(db: Db, runId: RunId, report: Outcome, wide: bool)
    requires IndexHolds(db.runs)
    ensures Applied(db, runId, report, wide, [[], [], []], false).tasks ==
            if && Flips(db, runId, report, wide) && report == NeedsHuman
               && !exists t | 0 <= t < |db.tasks| :: db.tasks[t].run == Some(runId) && db.tasks[t].open && db.tasks[t].blocking
            then db.tasks + [Task(Some(runId), db.runs[runId].ticket, true, true)]
            else db.tasks
  {
    var updated := Exec(db, UpdateRun(runId, ReportUpdate(report, wide)));
    UpdateKeepsTasks(db, runId, ReportUpdate(report, wide));
    if Flips(db, runId, report, wide) {
      ViolationIsDoubleBooking(updated, Question(db.runs[runId], runId, true));
    }
  }

  datatype ReportResult = Accepted | NotActive | Rejected

  class ReportService {
    const store: Store

    constructor (store: Store)
      ensures this.store == store
    {
      this.store := store;
    }

    /** `finalizeWithReport`, or with `wide` `reconcileWithReport`, with the effects of the report. */
    method ApplyReport(runId: RunId, report: Outcome, wide: bool, others: seq<seq<Write>>) returns (result: ReportResult)
      requires store.Valid() && |others| == 3
      modifies store
      ensures store.Valid()
      ensures store.Snapshot() == Applied(old(store.Snapshot()), runId, report, wide, others, false)
      ensures var at := History(old(store.Snapshot()), others[0]);
        && (result.Accepted? <==>
              && runId < |at.runs|
              && (at.runs[runId].Active()
                  || (wide && at.runs[runId].Rescuable() && !WouldDoubleBook(at, UpdateRun(runId, ReconcileWithReport(report))))))
        && (result.Rejected? <==> WouldDoubleBook(at, UpdateRun(runId, ReportUpdate(report, wide))))
    {
      store.Others(others[0]);
      ghost var at := store.Snapshot();
      if wide {
        var reconciled := store.ReconcileWithReport(runId, report);
        if !reconciled.Flipped? {
          return if reconciled.Threw? then Rejected else NotActive;
        }
      } else {
        var finalized := store.FinalizeWithReport(runId, report);
        if !finalized {
          return NotActive;
        }
      }
      StepEvolves(at, UpdateRun(runId, ReportUpdate(report, wide)), runId);
      if report.NeedsHuman? {
        CreateHumanTask(runId, others[1], others[2]);
      }
      result := Accepted;
    }

    /** Opens the report's question unless a blocking one is open. */
    method CreateHumanTask(runId: RunId, beforeCheck: seq<Write>, beforeInsert: seq<Write>)
      requires store.Valid() && runId < |store.runs|
      modifies store
      ensures store.Valid()
      ensures var checked := History(old(store.Snapshot()), beforeCheck);
        store.Snapshot() ==
          if HasOpenTask(checked.tasks, runId, true) then checked
          else Exec(History(checked, beforeInsert), Question(old(store.runs)[runId], runId, true))
    {
      ghost var start := store.Snapshot();
      HistoryEvolves(start, beforeCheck, runId);
      store.Others(beforeCheck);
      var asked := store.HasOpenBlockingTask(runId);
      if asked {
        return;
      }
      var run := store.runs[runId];
      store.Others(beforeInsert);
      store.AddTask(Task(Some(runId), run.ticket, true, true));
    }
  }
}
