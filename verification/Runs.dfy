/**
 * The run table as the database sees it: its rows, its two partial unique indexes and every
 * SQL statement that any process of the system uses to write it.
 *
 * A `Db` is one committed state. A `Write` is one atomic statement (or one transaction), so an
 * interleaving of processes is a sequence of `Write`s and `History` is its effect.
 * Row ids are positions in `runs` and `tasks`: rows are appended and never deleted.
 */
module Runs {
  import opened Wrappers

  type RunId = nat
  type TaskId = nat
  type TicketId = nat
  type AgentId = nat
  type WorkspaceId = nat

  datatype Status = Queued | Running | AwaitingHuman | Succeeded | Failed | Cancelled | TimedOut | Superseded

  /** The `outcome` of a schema-valid agent report. */
  datatype Outcome = Success | Failure | NeedsHuman | Routed | Team

  datatype Source = Manual | Poll | Triage | Rework | HumanResume | AnswerTriage | WorkspaceSetup

  /** The columns of `trigger_event` that later decisions read. */
  datatype Trigger = Trigger(source: Source, decidingRun: Option<RunId>, humanTask: Option<TaskId>)

  datatype Run = Run(
    workspace: WorkspaceId,
    ticket: Option<TicketId>,
    agent: AgentId,
    status: Status,
    outcome: Option<Outcome>,
    attempt: int,
    trigger: Trigger)
  {
    /** The predicate of both partial unique indexes. */
    predicate Active() {
      status.Queued? || status.Running? || status.AwaitingHuman?
    }

    /** A worker process may still be attached to the row. */
    predicate Live() {
      status.Queued? || status.Running?
    }

    /** Finalized by a process outcome that a report may still overrule. */
    predicate Rescuable() {
      (status.Failed? || status.TimedOut?) && outcome.None?
    }

    /** A report or a human has settled the run. */
    predicate Decided() {
      outcome.Some? || status.Succeeded? || status.Cancelled? || status.Superseded?
    }

    /** The key the row occupies in `runs_one_active` or, without a ticket, in `runs_one_active_setup`. */
    function Slot(): Slot {
      match ticket
      case Some(t) => OfTicket(t)
      case None => OfSetup(workspace)
    }
  }

  datatype Slot = OfTicket(ticket: TicketId) | OfSetup(workspace: WorkspaceId)

  datatype Task = Task(run: Option<RunId>, ticket: Option<TicketId>, blocking: bool, open: bool)

  datatype Db = Db(runs: seq<Run>, tasks: seq<Task>)

  /** The statuses any process outcome is finalized with; a process never claims a success. */
  type ProcessStatus = s: Status | s.Failed? || s.TimedOut? || s.Cancelled? witness Failed

  /** Report outcome to run status: only `success` and `routed` succeed, everything unlisted parks. */
  function ReportStatus(outcome: Outcome): Status {
    match outcome
    case Success => Succeeded
    case Routed => Succeeded
    case Failure => Failed
    case NeedsHuman => AwaitingHuman
    case Team => AwaitingHuman
  }

  /** One guarded UPDATE of one row. */
  datatype Update =
    | MarkRunning(attempt: int)
    | MarkQueuedForRetry
    | FinalizeWithReport(report: Outcome)
    | ReconcileWithReport(report: Outcome)
    | FailIfStillRunning
    | ParkIfStillRunning
    | FinalizeStatusIfRunning(status: ProcessStatus)
    | FinalizeStatus(status: ProcessStatus)
    | AcceptTeam
    | RecastTeam
    | Cancel
    | Supersede
  {
    /** The WHERE clause beyond the row id. */
    predicate Admits(r: Run) {
      match this
      case MarkRunning(_) => r.Live()
      case MarkQueuedForRetry => r.status.Running?
      case FinalizeWithReport(_) => r.Active()
      case ReconcileWithReport(_) => r.Active() || r.Rescuable()
      case FailIfStillRunning => r.status.Running?
      case ParkIfStillRunning => r.status.Running?
      case FinalizeStatusIfRunning(_) => r.status.Running?
      case FinalizeStatus(_) => r.Active()
      case AcceptTeam => r.Active()
      case RecastTeam => r.Active()
      case Cancel => r.status.Running?
      case Supersede => r.status.AwaitingHuman?
    }

    /** The SET clause. */
    function Apply(r: Run): Run {
      match this
      case MarkRunning(a) => r.(status := Running, attempt := if r.attempt < a then a else r.attempt)
      case MarkQueuedForRetry => r.(status := Queued)
      case FinalizeWithReport(o) => r.(status := ReportStatus(o), outcome := Some(o))
      case ReconcileWithReport(o) => r.(status := ReportStatus(o), outcome := Some(o))
      case FailIfStillRunning => r.(status := Failed)
      case ParkIfStillRunning => r.(status := AwaitingHuman)
      case FinalizeStatusIfRunning(s) => r.(status := s)
      case FinalizeStatus(s) => r.(status := s)
      case AcceptTeam => r.(status := Succeeded, outcome := Some(Team))
      case RecastTeam => r.(status := Failed, outcome := Some(Failure))
      case Cancel => r.(status := Cancelled)
      case Supersede => r.(status := Superseded)
    }
  }

  /** One atomic statement or transaction against the database. */
  datatype Write =
    | UpdateRun(id: RunId, update: Update)
    | CancelAll(workspace: WorkspaceId)
    | InsertRun(workspace: WorkspaceId, ticket: Option<TicketId>, agent: AgentId, trigger: Trigger)
    | ResumeRun(parked: RunId, agent: AgentId, attempt: int, trigger: Trigger)
    | InsertTask(task: Task)
    | CloseTask(taskId: TaskId)

  /** Both partial unique indexes: no two active rows share a slot. */
  predicate IndexHolds(runs: seq<Run>) {
    forall i, j | 0 <= i < j < |runs| && runs[i].Active() && runs[j].Active() :: runs[i].Slot() != runs[j].Slot()
  }

  predicate SlotTaken(runs: seq<Run>, slot: Slot) {
    exists i | 0 <= i < |runs| :: runs[i].Active() && runs[i].Slot() == slot
  }

  function CancelRow(r: Run, workspace: WorkspaceId): Run {
    if r.workspace == workspace && r.Live() then r.(status := Cancelled) else r
  }

  /** A fresh row: `queued`, no outcome. */
  function NewRun(workspace: WorkspaceId, ticket: Option<TicketId>, agent: AgentId, attempt: int, trigger: Trigger): Run {
    Run(workspace, ticket, agent, Queued, None, attempt, trigger)
  }

  /** The rows `w` would leave behind if no index existed. */
  function RunsAfter(runs: seq<Run>, w: Write): seq<Run> {
    match w
    case UpdateRun(id, u) =>
      if id < |runs| && u.Admits(runs[id]) then runs[id := u.Apply(runs[id])] else runs
    case CancelAll(ws) =>
      seq(|runs|, i requires 0 <= i < |runs| => CancelRow(runs[i], ws))
    case InsertRun(ws, t, a, e) =>
      runs + [NewRun(ws, t, a, 1, e)]
    case ResumeRun(id, a, n, e) =>
      if id < |runs| && runs[id].status.AwaitingHuman? then
        var parked := runs[id];
        runs[id := parked.(status := Superseded)] + [NewRun(parked.workspace, parked.ticket, a, n, e)]
      else runs
    case InsertTask(_) => runs
    case CloseTask(_) => runs
  }

  function TasksAfter(tasks: seq<Task>, w: Write): seq<Task> {
    match w
    case InsertTask(t) => tasks + [t.(open := true)]
    case CloseTask(id) => if id < |tasks| then tasks[id := tasks[id].(open := false)] else tasks
    case _ => tasks
  }

  /** The statement raises SQLSTATE 23505. */
  predicate Violates(db: Db, w: Write) {
    !IndexHolds(RunsAfter(db.runs, w))
  }

  /** A statement that breaks an index is rejected and changes nothing. */
  function Exec(db: Db, w: Write): Db {
    if Violates(db, w) then db else Db(RunsAfter(db.runs, w), TasksAfter(db.tasks, w))
  }

  /** The effect of any interleaving, read as the order in which its statements commit. */
  function History(db: Db, ws: seq<Write>): Db
    decreases |ws|
  {
    if ws == [] then db else History(Exec(db, ws[0]), ws[1..])
  }
}
