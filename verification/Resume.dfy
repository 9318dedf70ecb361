/** Resolving human tasks: the supersede-and-insert resume and what concurrent resolvers can do to one run. */
module Resume {
  import opened Wrappers
  import opened Runs
  import opened RunHistory
  import opened RunStore

  // ---------- at most one successor ----------

  predicate ResumeSource(s: Source) {
    s.HumanResume? || s.AnswerTriage? || s.WorkspaceSetup?
  }

  /** Run `s` was created by answering a task of run `p`: its trigger event names the task. */
  predicate SuccessorOf(db: Db, p: RunId, s: RunId) {
    && s < |db.runs| && ResumeSource(db.runs[s].trigger.source)
    && db.runs[s].trigger.humanTask.Some? && db.runs[s].trigger.humanTask.value < |db.tasks|
    && db.tasks[db.runs[s].trigger.humanTask.value].run == Some(p)
  }

  /** Who writes `human_task_id` into a resume-type trigger: the resume of that task's own run, nobody else. */
  predicate Disciplined(db: Db, w: Write) {
    match w
    case InsertRun(_, _, _, e) => ResumeSource(e.source) ==> e.humanTask.None?
    case ResumeRun(p, _, _, e) =>
      ResumeSource(e.source) && e.humanTask.Some? && e.humanTask.value < |db.tasks| && db.tasks[e.humanTask.value].run == Some(p)
    case _ => true
  }

  predicate DisciplinedHistory(db: Db, ws: seq<Write>)
    decreases |ws|
  {
    ws == [] || (Disciplined(db, ws[0]) && DisciplinedHistory(Exec(db, ws[0]), ws[1..]))
  }

  predicate TriggersNameTasks(db: Db) {
    forall s | 0 <= s < |db.runs| && ResumeSource(db.runs[s].trigger.source) && db.runs[s].trigger.humanTask.Some? ::
      db.runs[s].trigger.humanTask.value < |db.tasks|
  }

  ghost predicate OneSuccessor(db: Db) {
    && (forall p: RunId, s: RunId :: SuccessorOf(db, p, s) ==> p < |db.runs| && db.runs[p].status.Superseded?)
    && (forall p: RunId, s: RunId, s': RunId :: SuccessorOf(db, p, s) && SuccessorOf(db, p, s') ==> s == s')
  }

  lemma OtherWritesAddNoSuccessor(db: Db, w: Write, p: RunId, s: RunId)
    requires TriggersNameTasks(db) && Disciplined(db, w)
    requires SuccessorOf(Exec(db, w), p, s)
    ensures SuccessorOf(db, p, s) || (w.ResumeRun? && w.parked == p && s == |db.runs| && Exec(db, w) != db)
  {
    if s < |db.runs| {
      StepEvolves(db, w, s);
    }
  }

  lemma StepKeepsOneSuccessor(db: Db, w: Write)
    requires TriggersNameTasks(db) && OneSuccessor(db) && Disciplined(db, w)
    ensures TriggersNameTasks(Exec(db, w)) && OneSuccessor(Exec(db, w))
  {
    var next := Exec(db, w);
    forall s | 0 <= s < |next.runs| && ResumeSource(next.runs[s].trigger.source) && next.runs[s].trigger.humanTask.Some?
      ensures next.runs[s].trigger.humanTask.value < |next.tasks|
    {
      if s < |db.runs| {
        StepEvolves(db, w, s);
      }
    }
    forall p: RunId, s: RunId | SuccessorOf(next, p, s)
      ensures p < |next.runs| && next.runs[p].status.Superseded?
    {
      OtherWritesAddNoSuccessor(db, w, p, s);
      if SuccessorOf(db, p, s) {
        StepEvolves(db, w, p);
      }
    }
    forall p: RunId, s: RunId, s': RunId | SuccessorOf(next, p, s) && SuccessorOf(next, p, s')
      ensures s == s'
    {
      OtherWritesAddNoSuccessor(db, w, p, s);
      OtherWritesAddNoSuccessor(db, w, p, s');
    }
  }

  /** Whatever resolvers, workers and people do and in whatever order, a parked run gets at most one successor. */
  lemma {:induction false} AtMostOneSuccessor(db: Db, ws: seq<Write>)
    requires TriggersNameTasks(db) && OneSuccessor(db) && DisciplinedHistory(db, ws)
    ensures OneSuccessor(History(db, ws)) && TriggersNameTasks(History(db, ws))
    decreases |ws|
  {
    if ws != [] {
      StepKeepsOneSuccessor(db, ws[0]);
      AtMostOneSuccessor(Exec(db, ws[0]), ws[1..]);
    }
  }

  // ---------- attempt numbers ----------

  /** The attempt of a resumed run: a different agent starts over, the same agent counts on. */
  function NewAttempt(parked: Run, agent: AgentId): int {
    if agent != parked.agent then 1 else parked.attempt + 1
  }

  /**
   * The row is read before the transaction that supersedes it. The same agent's next attempt is
   * sure to be larger than the superseded one exactly when the row was already out of the queue
   * at the read; otherwise a crash retry can raise it before it parks.
   */
  lemma AttemptGrowsIffReadAfterLeavingTheQueue(db: Db, id: RunId)
    requires IndexHolds(db.runs) && id < |db.runs|
    ensures (forall ws: seq<Write> ::
              id < |History(db, ws).runs| && History(db, ws).runs[id].status.AwaitingHuman? ==>
                History(db, ws).runs[id].attempt < NewAttempt(db.runs[id], db.runs[id].agent))
            <==> !db.runs[id].Live()
  {
    if db.runs[id].Live() {
      RetryOutrunsTheRead(db, id);
    } else {
      forall ws: seq<Write> | id < |History(db, ws).runs| && History(db, ws).runs[id].status.AwaitingHuman?
        ensures History(db, ws).runs[id].attempt < NewAttempt(db.runs[id], db.runs[id].agent)
      {
        HistoryEvolves(db, ws, id);
      }
    }
  }

  /** The race in the open: pickup with a higher attempt, then the park. */
  lemma RetryOutrunsTheRead(db: Db, id: RunId)
    requires IndexHolds(db.runs) && id < |db.runs| && db.runs[id].Live()
    ensures var ws := [UpdateRun(id, MarkRunning(db.runs[id].attempt + 1)), UpdateRun(id, ParkIfStillRunning)];
            id < |History(db, ws).runs| && History(db, ws).runs[id].status.AwaitingHuman? &&
            History(db, ws).runs[id].attempt == NewAttempt(db.runs[id], db.runs[id].agent)
  {
    var pickup, park := UpdateRun(id, MarkRunning(db.runs[id].attempt + 1)), UpdateRun(id, ParkIfStillRunning);
    var picked := Exec(db, pickup);
    ViolationIsDoubleBooking(db, pickup);
    ViolationIsDoubleBooking(picked, park);
    assert [pickup, park][1..] == [park] && [park][1..] == [];
    assert History(db, [pickup, park]) == History(picked, [park]) == Exec(picked, park);
  }

  // ---------- resolving a task ----------

  datatype Action = ResumeIt | DoneManually | Dismiss

  /** The optional `target_agent_id` after its lookup: absent, not a valid enabled agent, or an agent. */
  datatype Target = NoTarget | UnknownTarget | ToAgent(agent: AgentId, isOrchestrator: bool)

  datatype Resolution = NotFound | NotOpen | InvalidTarget | ActiveRunConflict | Closed | ResumedAs(runId: RunId)

  function EffectiveAgent(parked: Run, target: Target): AgentId {
    if target.ToAgent? then target.agent else parked.agent
  }

  /** A setup run resumes as a setup run, an orchestrator re-triages, a worker resumes. */
  function ResumeTrigger(parked: Run, parkedIsOrchestrator: bool, target: Target, taskId: TaskId): Trigger {
    var toOrchestrator := if target.ToAgent? then target.isOrchestrator else parkedIsOrchestrator;
    var source := if parked.trigger.source.WorkspaceSetup? then WorkspaceSetup else if toOrchestrator then AnswerTriage else HumanResume;
    Trigger(source, None, Some(taskId))
  }

  /** The transaction a resolver issues on the strength of the row `parked` it has read. */
  function ResumeWrite(id: RunId, parked: Run, parkedIsOrchestrator: bool, target: Target, taskId: TaskId): Write {
    var agent := EffectiveAgent(parked, target);
    ResumeRun(id, agent, NewAttempt(parked, agent), ResumeTrigger(parked, parkedIsOrchestrator, target, taskId))
  }

  /**
   * `row` is the run that the answer to a task of `parked` asks for: on the parked run's ticket, by the target if one
   * was given, the same agent counting its attempts on; a setup run for a setup run, else a triage run for an
   * orchestrator and a plain resume for a worker, naming the task.
   */
  predicate Answers(row: Run, parked: Run, parkedIsOrchestrator: bool, target: Target, taskId: TaskId) {
    && row.workspace == parked.workspace && row.ticket == parked.ticket && row.status == Queued && row.outcome == None
    && row.agent == (match target case ToAgent(agent, _) => agent case _ => parked.agent)
    && row.attempt == (if row.agent == parked.agent then parked.attempt + 1 else 1)
    && row.trigger.humanTask == Some(taskId) && row.trigger.decidingRun == None
    && (row.trigger.source == WorkspaceSetup <==> parked.trigger.source == WorkspaceSetup)
    && (parked.trigger.source != WorkspaceSetup ==>
          if (match target case ToAgent(_, isOrchestrator) => isOrchestrator case _ => parkedIsOrchestrator)
          then row.trigger.source == AnswerTriage
          else row.trigger.source == HumanResume)
  }

  /** `after` is `before` with the parked run superseded by a new last row. */
  predicate Succeeds(before: Db, after: Db, parked: RunId) {
    && parked < |before.runs| && before.runs[parked].status == AwaitingHuman
    && |after.runs| == |before.runs| + 1 && after.tasks == before.tasks
    && after.runs[..|before.runs|] == before.runs[parked := before.runs[parked].(status := Superseded)]
  }

  /** What the resolver's transaction does to a run that still waits, the row read any time earlier. */
  lemma ResumeWriteAnswers(db: Db, id: RunId, read: Run, parkedIsOrchestrator: bool, target: Target, taskId: TaskId)
    requires IndexHolds(db.runs) && id < |db.runs| && db.runs[id].status == AwaitingHuman && Evolves(read, db.runs[id])
    ensures var after := Exec(db, ResumeWrite(id, read, parkedIsOrchestrator, target, taskId));
            Succeeds(db, after, id) && Answers(after.runs[|db.runs|], read, parkedIsOrchestrator, target, taskId)
  {
    ViolationIsDoubleBooking(db, ResumeWrite(id, read, parkedIsOrchestrator, target, taskId));
  }

  /** Task rows keep the run they ask about, and a closed task stays closed. */
  lemma {:induction false} HistoryKeepsTask(db: Db, ws: seq<Write>, t: TaskId)
    requires t < |db.tasks|
    ensures t < |History(db, ws).tasks|
    ensures History(db, ws).tasks[t] == db.tasks[t] || History(db, ws).tasks[t] == db.tasks[t].(open := false)
    decreases |ws|
  {
    if ws != [] {
      HistoryKeepsTask(Exec(db, ws[0]), ws[1..], t);
    }
  }

  /** However late it commits, a resolver's own transaction respects the discipline. */
  lemma ResumeWriteIsDisciplined(db: Db, ws: seq<Write>, id: RunId, parked: Run, parkedIsOrchestrator: bool, target: Target, taskId: TaskId)
    requires taskId < |db.tasks| && db.tasks[taskId].run == Some(id)
    ensures Disciplined(History(db, ws), ResumeWrite(id, parked, parkedIsOrchestrator, target, taskId))
  {
    HistoryKeepsTask(db, ws, taskId);
  }

  /** The state a resolver closes the task in: without a resume the parked run of a blocking question is superseded. */
  function AfterVerdict(seen: Db, task: Task, action: Action, others: seq<Write>): Db {
    if action.ResumeIt? then seen
    else History(if task.blocking && task.run.Some? then Exec(seen, UpdateRun(task.run.value, Supersede)) else seen, others)
  }

  class Resolver {
    const store: Store

    constructor (store: Store)
      ensures this.store == store
    {
      this.store := store;
    }

    /**
     * Resolve one task. `others[k]` commits before the task is read, before the parked row is
     * read, before the transaction, and before the task is closed.
     */
    method Resolve(taskId: TaskId, action: Action, target: Target, parkedIsOrchestrator: bool, others: seq<seq<Write>>)
      returns (result: Resolution)
      requires store.Valid() && |others| == 4
      modifies store
      ensures store.Valid()
      // The conflict answer of the transaction is never given while the index holds.
      ensures !result.ActiveRunConflict?
      ensures var seen := History(old(store.Snapshot()), others[0]);
        && (result.NotFound? <==> |seen.tasks| <= taskId)
        && (result.Closed? <==>
              && taskId < |seen.tasks| && seen.tasks[taskId].open
              && !(action == ResumeIt && seen.tasks[taskId].blocking && seen.tasks[taskId].run.Some?))
        && (result.InvalidTarget? <==>
              && taskId < |seen.tasks| && seen.tasks[taskId].open
              && action == ResumeIt && seen.tasks[taskId].blocking && seen.tasks[taskId].run.Some?
              && ((target != NoTarget && seen.tasks[taskId].ticket == None) || target == UnknownTarget))
        && (result.NotOpen? ==> taskId < |seen.tasks|)
        && (taskId < |seen.tasks| && !seen.tasks[taskId].open ==> result.NotOpen? && store.Snapshot() == seen)
        && (result.NotFound? || result.InvalidTarget? ==> store.Snapshot() == seen)
        && (result.Closed? ==>
              store.Snapshot() == Exec(AfterVerdict(seen, seen.tasks[taskId], action, others[1]), Write.CloseTask(taskId)))
      // A resume is the transaction on the row as read, then the close of the task; it happens whenever the run still waits.
      ensures var seen := History(old(store.Snapshot()), others[0]);
        var read := History(seen, others[1]);
        var commit := History(read, others[2]);
        && taskId < |seen.tasks| && seen.tasks[taskId].open
        && action == ResumeIt && seen.tasks[taskId].blocking && seen.tasks[taskId].run.Some?
        && (target == NoTarget || (target.ToAgent? && seen.tasks[taskId].ticket.Some?)) ==>
          && var parked := seen.tasks[taskId].run.value;
          && (result.ResumedAs? <==>
                parked < |read.runs| && parked < |commit.runs| && commit.runs[parked].status.AwaitingHuman?)
          && (result.ResumedAs? ==>
                && parked < |read.runs| && result.runId == |commit.runs|
                && var resumed := Exec(commit, ResumeWrite(parked, read.runs[parked], parkedIsOrchestrator, target, taskId));
                && Succeeds(commit, resumed, parked)
                && Answers(resumed.runs[result.runId], read.runs[parked], parkedIsOrchestrator, target, taskId)
                && store.Snapshot() == Exec(History(resumed, others[3]), Write.CloseTask(taskId)))
          // Declined, the resolver has written nothing: the task stays as the others leave it.
          && (!result.ResumedAs? ==> store.Snapshot() == read || store.Snapshot() == commit)
      // Closed without a resume, a run that was waiting on the question is superseded; otherwise the resolver touches no run.
      ensures result.Closed? ==>
        var seen := History(old(store.Snapshot()), others[0]);
        && var task := seen.tasks[taskId];
        && if !action.ResumeIt? && task.blocking && task.run.Some?
              && task.run.value < |seen.runs| && seen.runs[task.run.value].status == AwaitingHuman
           then task.run.value < |store.runs| && store.runs[task.run.value] == seen.runs[task.run.value].(status := Superseded)
           else store.runs == if action.ResumeIt? then seen.runs else History(seen, others[1]).runs
      ensures result.Closed? || result.ResumedAs? ==> taskId < |store.tasks| && !store.tasks[taskId].open
    {
      store.Others(others[0]);
      if |store.tasks| <= taskId {
        return NotFound;
      }
      var task := store.tasks[taskId];
      if !task.open {
        return NotOpen;
      }
      if action == ResumeIt {
        if !task.blocking || task.run == None {
          store.CloseTask(taskId);
          return Closed;
        }
        if (target != NoTarget && task.ticket == None) || target == UnknownTarget {
          return InvalidTarget;
        }
        result := ResumeParked(taskId, task.run.value, target, parkedIsOrchestrator, others[1], others[2]);
        if result.ResumedAs? {
          HistoryKeepsTask(store.Snapshot(), others[3], taskId);
          store.Others(others[3]);
          store.CloseTask(taskId);
        }
      } else {
        if task.blocking && task.run.Some? {
          store.Supersede(task.run.value);
          if task.run.value < |store.runs| {
            HistoryEvolves(store.Snapshot(), others[1], task.run.value);
          }
        }
        HistoryKeepsTask(store.Snapshot(), others[1], taskId);
        store.Others(others[1]);
        store.CloseTask(taskId);
        result := Closed;
      }
    }

    method ResumeParked(taskId: TaskId, parked: RunId, target: Target, parkedIsOrchestrator: bool, beforeRead: seq<Write>, beforeCommit: seq<Write>)
      returns (result: Resolution)
      requires store.Valid() && taskId < |store.tasks|
      modifies store
      ensures store.Valid() && taskId < |store.tasks|
      ensures result.ResumedAs? || result.NotOpen?
      ensures var read := History(old(store.Snapshot()), beforeRead);
        var commit := History(read, beforeCommit);
        && (result.ResumedAs? <==> parked < |read.runs| && parked < |commit.runs| && commit.runs[parked].status.AwaitingHuman?)
        && (result.ResumedAs? ==>
              && parked < |read.runs| && result.runId == |commit.runs|
              && store.Snapshot() == Exec(commit, ResumeWrite(parked, read.runs[parked], parkedIsOrchestrator, target, taskId))
              && Succeeds(commit, store.Snapshot(), parked)
              && Answers(store.runs[result.runId], read.runs[parked], parkedIsOrchestrator, target, taskId))
        && (result.NotOpen? ==> store.Snapshot() == read || store.Snapshot() == commit)
    {
      HistoryKeepsTask(store.Snapshot(), beforeRead, taskId);
      store.Others(beforeRead);
      if |store.runs| <= parked {
        return NotOpen;
      }
      var row := store.runs[parked];
      var agent := if target.ToAgent? then target.agent else row.agent;
      var attempt := if agent != row.agent then 1 else row.attempt + 1;
      var event := ResumeTrigger(row, parkedIsOrchestrator, target, taskId);
      assert ResumeRun(parked, agent, attempt, event) == ResumeWrite(parked, row, parkedIsOrchestrator, target, taskId);
      HistoryKeepsTask(store.Snapshot(), beforeCommit, taskId);
      HistoryEvolves(store.Snapshot(), beforeCommit, parked);
      store.Others(beforeCommit);
      if store.runs[parked].status == AwaitingHuman {
        ResumeWriteAnswers(store.Snapshot(), parked, row, parkedIsOrchestrator, target, taskId);
      }
      var resumed := store.ResumeTransaction(parked, agent, attempt, event);
      match resumed
      case Conflict => result := ActiveRunConflict;
      case Gone => result := NotOpen;
      case Resumed(id) => result := ResumedAs(id);
    }
  }
}
