/**
 * The shared store: one object holding the tables, one method per guarded statement.
 * Each method is atomic and proved against `Runs.Exec`; `Others` is whatever the other processes
 * commit while the caller is between two of its own statements.
 */
module RunStore {
  import opened Wrappers
  import opened Runs
  import opened RunHistory

  datatype ReconcileResult = Flipped | NotFlipped | Threw

  datatype TriggerResult = Created(runId: RunId) | Deduplicated(existing: Option<RunId>)

  datatype ResumeResult = Resumed(runId: RunId) | Gone | Conflict

  predicate HasOpenTask(tasks: seq<Task>, runId: RunId, blocking: bool) {
    exists t | 0 <= t < |tasks| :: tasks[t].run == Some(runId) && tasks[t].open && tasks[t].blocking == blocking
  }

  /** Row `id` now carries the report: a success or a routing succeeds, a failure fails, anything else waits for a human. */
  predicate Reported(before: seq<Run>, after: seq<Run>, id: RunId, report: Outcome) {
    && id < |before| && id < |after|
    && after == before[id := before[id].(status := after[id].status, outcome := Some(report))]
    && (after[id].status.Succeeded? <==> report.Success? || report.Routed?)
    && (after[id].status.Failed? <==> report.Failure?)
    && (after[id].status.AwaitingHuman? <==> report.NeedsHuman? || report.Team?)
  }

  class Store {
    var runs: seq<Run>
    var tasks: seq<Task>

    constructor ()
      ensures Valid() && Snapshot() == Db([], [])
    {
      runs, tasks := [], [];
    }

    ghost predicate Valid()
      reads this
    {
      IndexHolds(runs) && SuccessIsReported(runs)
    }

    function Snapshot(): Db
      reads this
    {
      Db(runs, tasks)
    }

    method MarkRunning(runId: RunId, attempt: int) returns (flipped: bool)
      requires Valid()
      modifies this
      ensures Valid() && Snapshot() == Exec(old(Snapshot()), UpdateRun(runId, Update.MarkRunning(attempt)))
      ensures flipped <==> runId < |old(runs)| && old(runs[runId].Live())
      ensures tasks == old(tasks) && (!flipped ==> runs == old(runs))
      ensures flipped ==>
        && var was := old(runs)[runId];
        && var greatest := runs[runId].attempt;
        && runs == old(runs)[runId := was.(status := Running, attempt := greatest)]
        && greatest >= attempt && greatest >= was.attempt && (greatest == attempt || greatest == was.attempt)
    {
      ViolationIsDoubleBooking(Snapshot(), UpdateRun(runId, Update.MarkRunning(attempt)));
      flipped := runId < |runs| && (runs[runId].status.Queued? || runs[runId].status.Running?);
      if flipped {
        var greatest := if runs[runId].attempt < attempt then attempt else runs[runId].attempt;
        runs := runs[runId := runs[runId].(status := Running, attempt := greatest)];
      }
    }

    method MarkQueuedForRetry(runId: RunId)
      requires Valid()
      modifies this
      ensures Valid() && Snapshot() == Exec(old(Snapshot()), UpdateRun(runId, Update.MarkQueuedForRetry))
      ensures tasks == old(tasks)
      ensures runs == if runId < |old(runs)| && old(runs)[runId].status.Running? then old(runs)[runId := old(runs)[runId].(status := Queued)] else old(runs)
    {
      ViolationIsDoubleBooking(Snapshot(), UpdateRun(runId, Update.MarkQueuedForRetry));
      if runId < |runs| && runs[runId].status.Running? {
        runs := runs[runId := runs[runId].(status := Queued)];
      }
    }

    method FinalizeWithReport(runId: RunId, report: Outcome) returns (flipped: bool)
      requires Valid()
      modifies this
      ensures Valid() && Snapshot() == Exec(old(Snapshot()), UpdateRun(runId, Update.FinalizeWithReport(report)))
      ensures flipped <==> runId < |old(runs)| && old(runs[runId].Active())
      ensures tasks == old(tasks) && (!flipped ==> runs == old(runs))
      ensures flipped ==> Reported(old(runs), runs, runId, report)
    {
      ViolationIsDoubleBooking(Snapshot(), UpdateRun(runId, Update.FinalizeWithReport(report)));
      flipped := runId < |runs| && runs[runId].Active();
      if flipped {
        runs := runs[runId := runs[runId].(status := ReportStatus(report), outcome := Some(report))];
      }
    }

    /** The one UPDATE that can raise 23505: it may bring a finished run back to `awaiting_human`. */
    method ReconcileWithReport(runId: RunId, report: Outcome) returns (result: ReconcileResult)
      requires Valid()
      modifies this
      ensures Valid() && Snapshot() == Exec(old(Snapshot()), UpdateRun(runId, Update.ReconcileWithReport(report)))
      ensures result.Threw? <==> WouldDoubleBook(old(Snapshot()), UpdateRun(runId, Update.ReconcileWithReport(report)))
      ensures result.NotFlipped? <==> !(runId < |old(runs)| && old(runs[runId].Active() || runs[runId].Rescuable()))
      ensures tasks == old(tasks) && (!result.Flipped? ==> runs == old(runs))
      ensures result.Flipped? ==> Reported(old(runs), runs, runId, report)
    {
      ViolationIsDoubleBooking(Snapshot(), UpdateRun(runId, Update.ReconcileWithReport(report)));
      if runId < |runs| && (runs[runId].Active() || ((runs[runId].status.Failed? || runs[runId].status.TimedOut?) && runs[runId].outcome == None)) {
        var updated := runs[runId := runs[runId].(status := ReportStatus(report), outcome := Some(report))];
        if IndexHolds(updated) {
          runs, result := updated, Flipped;
        } else {
          result := Threw;
        }
      } else {
        result := NotFlipped;
      }
    }

    method FailIfStillRunning(runId: RunId) returns (flipped: bool)
      requires Valid()
      modifies this
      ensures Valid() && Snapshot() == Exec(old(Snapshot()), UpdateRun(runId, Update.FailIfStillRunning))
      ensures flipped <==> runId < |old(runs)| && old(runs[runId].status.Running?)
      ensures tasks == old(tasks)
      ensures runs == if flipped then old(runs)[runId := old(runs)[runId].(status := Failed)] else old(runs)
    {
      ViolationIsDoubleBooking(Snapshot(), UpdateRun(runId, Update.FailIfStillRunning));
      flipped := runId < |runs| && runs[runId].status == Running;
      if flipped {
        runs := runs[runId := runs[runId].(status := Failed)];
      }
    }

    /** Both `parkIfStillRunning` of the run service and `parkRun` of the human-task service. */
    method ParkIfStillRunning(runId: RunId) returns (flipped: bool)
      requires Valid()
      modifies this
      ensures Valid() && Snapshot() == Exec(old(Snapshot()), UpdateRun(runId, Update.ParkIfStillRunning))
      ensures flipped <==> runId < |old(runs)| && old(runs[runId].status.Running?)
      ensures tasks == old(tasks)
      ensures runs == if flipped then old(runs)[runId := old(runs)[runId].(status := AwaitingHuman)] else old(runs)
    {
      ViolationIsDoubleBooking(Snapshot(), UpdateRun(runId, Update.ParkIfStillRunning));
      flipped := runId < |runs| && runs[runId].status == Running;
      if flipped {
        runs := runs[runId := runs[runId].(status := AwaitingHuman)];
      }
    }

    method FinalizeStatusIfRunning(runId: RunId, status: ProcessStatus) returns (flipped: bool)
      requires Valid()
      modifies this
      ensures Valid() && Snapshot() == Exec(old(Snapshot()), UpdateRun(runId, Update.FinalizeStatusIfRunning(status)))
      ensures flipped <==> runId < |old(runs)| && old(runs[runId].status.Running?)
      ensures tasks == old(tasks)
      ensures runs == if flipped then old(runs)[runId := old(runs)[runId].(status := status)] else old(runs)
    {
      ViolationIsDoubleBooking(Snapshot(), UpdateRun(runId, Update.FinalizeStatusIfRunning(status)));
      flipped := runId < |runs| && runs[runId].status == Running;
      if flipped {
        runs := runs[runId := runs[runId].(status := status)];
      }
    }

    method FinalizeStatus(runId: RunId, status: ProcessStatus) returns (flipped: bool)
      requires Valid()
      modifies this
      ensures Valid() && Snapshot() == Exec(old(Snapshot()), UpdateRun(runId, Update.FinalizeStatus(status)))
      ensures flipped <==> runId < |old(runs)| && old(runs[runId].Active())
      ensures tasks == old(tasks)
      ensures runs == if flipped then old(runs)[runId := old(runs)[runId].(status := status)] else old(runs)
    {
      ViolationIsDoubleBooking(Snapshot(), UpdateRun(runId, Update.FinalizeStatus(status)));
      flipped := runId < |runs| && runs[runId].Active();
      if flipped {
        runs := runs[runId := runs[runId].(status := status)];
      }
    }

    /** `done_manually` and `dismiss`: the parked run is closed without a successor. */
    method Supersede(runId: RunId)
      requires Valid()
      modifies this
      ensures Valid() && Snapshot() == Exec(old(Snapshot()), UpdateRun(runId, Update.Supersede))
      ensures tasks == old(tasks)
      ensures runs == if runId < |old(runs)| && old(runs)[runId].status.AwaitingHuman? then old(runs)[runId := old(runs)[runId].(status := Superseded)] else old(runs)
    {
      ViolationIsDoubleBooking(Snapshot(), UpdateRun(runId, Update.Supersede));
      if runId < |runs| && runs[runId].status == AwaitingHuman {
        runs := runs[runId := runs[runId].(status := Superseded)];
      }
    }

    /** Insert under the unique index; a violation is answered with the run that holds the slot. */
    method Trigger(workspace: WorkspaceId, ticket: Option<TicketId>, agent: AgentId, event: Trigger) returns (result: TriggerResult)
      requires Valid()
      modifies this
      ensures Valid() && Snapshot() == Exec(old(Snapshot()), InsertRun(workspace, ticket, agent, event))
      ensures result.Created? ==>
        && !SlotTaken(old(runs), NewRun(workspace, ticket, agent, 1, event).Slot())
        && result.runId == |old(runs)| && runs == old(runs) + [NewRun(workspace, ticket, agent, 1, event)]
      ensures result.Deduplicated? ==>
        && runs == old(runs) && result.existing.Some? && result.existing.value < |runs|
        && runs[result.existing.value].Active()
        && runs[result.existing.value].Slot() == NewRun(workspace, ticket, agent, 1, event).Slot()
      ensures tasks == old(tasks)
      ensures result.Created? ==>
        runs[result.runId] == Run(workspace, ticket, agent, Queued, None, 1, event)
    {
      var row := NewRun(workspace, ticket, agent, 1, event);
      ViolationIsDoubleBooking(Snapshot(), InsertRun(workspace, ticket, agent, event));
      var i := 0;
      while i < |runs|
        invariant 0 <= i <= |runs|
        invariant forall k | 0 <= k < i :: !(runs[k].Active() && runs[k].Slot() == row.Slot())
      {
        if runs[i].Active() && runs[i].Slot() == row.Slot() {
          return Deduplicated(Some(i));
        }
        i := i + 1;
      }
      result := Created(|runs|);
      runs := runs + [row];
    }

    /** The supersede-and-insert transaction; a violation rolls both statements back. */
    method ResumeTransaction(parked: RunId, agent: AgentId, attempt: int, event: Trigger) returns (result: ResumeResult)
      requires Valid()
      modifies this
      ensures Valid() && Snapshot() == Exec(old(Snapshot()), ResumeRun(parked, agent, attempt, event))
      ensures !result.Conflict?
      ensures result.Resumed? <==> parked < |old(runs)| && old(runs[parked].status.AwaitingHuman?)
      ensures result.Resumed? ==> result.runId == |old(runs)|
      ensures tasks == old(tasks) && (!result.Resumed? ==> runs == old(runs))
      ensures result.Resumed? ==>
        && var was := old(runs)[parked];
        && runs == old(runs)[parked := was.(status := Superseded)] + [Run(was.workspace, was.ticket, agent, Queued, None, attempt, event)]
    {
      ViolationIsDoubleBooking(Snapshot(), ResumeRun(parked, agent, attempt, event));
      if parked < |runs| && runs[parked].status == AwaitingHuman {
        var row := runs[parked];
        var updated := runs[parked := row.(status := Superseded)] + [NewRun(row.workspace, row.ticket, agent, attempt, event)];
        if !IndexHolds(updated) {
          return Conflict;
        }
        result := Resumed(|runs|);
        runs := updated;
      } else {
        result := Gone;
      }
    }

    method AddTask(task: Task)
      requires Valid()
      modifies this
      ensures Valid() && Snapshot() == Exec(old(Snapshot()), InsertTask(task))
      ensures runs == old(runs) && tasks == old(tasks) + [Task(task.run, task.ticket, task.blocking, true)]
    {
      tasks := tasks + [task.(open := true)];
    }

    method CloseTask(taskId: TaskId)
      requires Valid()
      modifies this
      ensures Valid() && Snapshot() == Exec(old(Snapshot()), Write.CloseTask(taskId))
      ensures runs == old(runs)
      ensures tasks == if taskId < |old(tasks)| then old(tasks)[taskId := old(tasks)[taskId].(open := false)] else old(tasks)
    {
      if taskId < |tasks| {
        tasks := tasks[taskId := tasks[taskId].(open := false)];
      }
    }

    method HasOpenBlockingTask(runId: RunId) returns (found: bool)
      ensures found <==> HasOpenTask(tasks, runId, true)
      ensures found <==> exists t | 0 <= t < |tasks| :: tasks[t].run == Some(runId) && tasks[t].blocking && tasks[t].open
    {
      found := exists t | 0 <= t < |tasks| :: tasks[t].run == Some(runId) && tasks[t].open && tasks[t].blocking;
    }

    method Perform(w: Write)
      requires Valid()
      modifies this
      ensures Valid() && Snapshot() == Exec(old(Snapshot()), w)
    {
      HistoryReportsSuccess(Snapshot(), [w]);
      assert History(Snapshot(), [w]) == History(Exec(Snapshot(), w), []);
      var after := Exec(Snapshot(), w);
      runs, tasks := after.runs, after.tasks;
    }

    /** Any writes of any other processes, committed in this order. */
    method Others(ws: seq<Write>)
      requires Valid()
      modifies this
      ensures Valid() && Snapshot() == History(old(Snapshot()), ws)
    {
      var i := 0;
      while i < |ws|
        invariant 0 <= i <= |ws| && Valid()
        invariant History(Snapshot(), ws[i..]) == History(old(Snapshot()), ws)
      {
        assert ws[i..][0] == ws[i] && ws[i..][1..] == ws[i + 1..];
        Perform(ws[i]);
        i := i + 1;
      }
    }
  }
}
