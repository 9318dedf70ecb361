/** Questions to a human: the request that opens a task and parks the run, and what keeps it from being lost. */
module HumanTasks {
  import opened Wrappers
  import opened Runs
  import opened RunHistory
  import opened RunStore
  import opened ExitPath

  /** No run has two open tasks of one kind. */
  predicate OneOpenPerKind(tasks: seq<Task>) {
    forall i, j | 0 <= i < j < |tasks| && tasks[i].open && tasks[j].open && tasks[i].run.Some? ::
      tasks[i].run != tasks[j].run || tasks[i].blocking != tasks[j].blocking
  }

  predicate Closes(w: Write) {
    w.CloseTask?
  }

  /** The write opens a task of this run and kind. */
  predicate Asks(w: Write, runId: RunId, blocking: bool) {
    w.InsertTask? && w.task.run == Some(runId) && w.task.blocking == blocking
  }

  function Question(r: Run, runId: RunId, blocking: bool): Write {
    InsertTask(Task(Some(runId), r.ticket, blocking, true))
  }

  /**
   * A request up to its insert, with what the other processes commit before its run is read, before the
   * duplicate check and before the insert. A duplicate inserts nothing.
   */
  function Landed(db: Db, runId: RunId, blocking: bool, others: seq<seq<Write>>): Db
    requires |others| == 4 && runId < |History(db, others[0]).runs|
  {
    var read := History(db, others[0]);
    var checked := History(read, others[1]);
    if HasOpenTask(checked.tasks, runId, blocking) then checked
    else Exec(History(checked, others[2]), Question(read.runs[runId], runId, blocking))
  }

  /** The whole request: a blocking one parks the run, whether or not it was a duplicate. */
  function Requested(db: Db, runId: RunId, blocking: bool, others: seq<seq<Write>>): Db
    requires |others| == 4
  {
    var read := History(db, others[0]);
    if |read.runs| <= runId then read
    else
      var landed := Landed(db, runId, blocking, others);
      var duplicate := HasOpenTask(History(read, others[1]).tasks, runId, blocking);
      if blocking then Exec(History(landed, if duplicate then others[2] else others[3]), UpdateRun(runId, ParkIfStillRunning))
      else landed
  }

  /** The run the service parks is not running afterwards, whichever branch it took and whatever came between. */
  lemma BlockingRequestStopsTheRun(db: Db, runId: RunId, others: seq<seq<Write>>)
    requires |others| == 4 && IndexHolds(db.runs) && runId < |History(db, others[0]).runs|
    ensures runId < |Requested(db, runId, true, others).runs|
    ensures !Requested(db, runId, true, others).runs[runId].status.Running?
  {
    var read := History(db, others[0]);
    var checked := History(read, others[1]);
    OneActiveRunPerSlot(db, others[0], OfTicket(0));
    OneActiveRunPerSlot(read, others[1], OfTicket(0));
    HistoryEvolves(read, others[1], runId);
    var waited := History(checked, others[2]);
    OneActiveRunPerSlot(checked, others[2], OfTicket(0));
    HistoryEvolves(checked, others[2], runId);
    if HasOpenTask(checked.tasks, runId, true) {
      ParkStops(waited, runId);
    } else {
      var inserted := Exec(waited, Question(read.runs[runId], runId, true));
      OneActiveRunPerSlot(inserted, others[3], OfTicket(0));
      HistoryEvolves(inserted, others[3], runId);
      ParkStops(History(inserted, others[3]), runId);
    }
  }

  lemma ParkStops(db: Db, runId: RunId)
    requires IndexHolds(db.runs) && runId < |db.runs|
    ensures var after := Exec(db, UpdateRun(runId, ParkIfStillRunning));
            runId < |after.runs| && !after.runs[runId].status.Running?
  {
    ViolationIsDoubleBooking(db, UpdateRun(runId, ParkIfStillRunning));
  }

  /** An open question stays open while nobody closes a task. */
  lemma {:induction false} QuestionStaysOpen(db: Db, ws: seq<Write>, runId: RunId, blocking: bool)
    requires HasOpenTask(db.tasks, runId, blocking) && forall i | 0 <= i < |ws| :: !Closes(ws[i])
    ensures HasOpenTask(History(db, ws).tasks, runId, blocking)
    decreases |ws|
  {
    if ws != [] {
      var t :| 0 <= t < |db.tasks| && db.tasks[t].run == Some(runId) && db.tasks[t].open && db.tasks[t].blocking == blocking;
      assert Exec(db, ws[0]).tasks[t] == db.tasks[t];
      QuestionStaysOpen(Exec(db, ws[0]), ws[1..], runId, blocking);
    }
  }

  // ---------- silent exits and open questions ----------

  /** With the question open, these are the only places the exit path of a silently completed run visits. */
  predicate Asking(pc: Pc) {
    pc.Start? || pc.CheckTask? || pc.Park? || pc.Done?
  }

  /**
   * A question that is open before the check protects the run: as long as it is not closed, no interleaving
   * brings the exit path of a silently completed run to its fail-closed statement.
   */
  lemma {:induction false} QuestionOpenBeforeTheCheckProtects(job: Job, pc: Pc, db: Db, events: seq<Event>)
    requires job.exit.Completed? && job.OwnedByCallbacks() && Asking(pc)
    requires HasOpenTask(db.tasks, job.runId, true)
    requires forall i | 0 <= i < |events| && events[i].Other? :: !Closes(events[i].write)
    ensures Asking(Trace(job, pc, db, events).0)
    ensures HasOpenTask(Trace(job, pc, db, events).1.tasks, job.runId, true)
    decreases |events|
  {
    if events != [] {
      match events[0] {
        case Own =>
          OwnStepKeepsTasks(job, pc, db);
          QuestionOpenBeforeTheCheckProtects(job, Next(job, pc, db), OwnStep(job, pc, db), events[1..]);
        case Other(w) =>
          OneWriteKeepsTheQuestion(db, w, job.runId);
          QuestionOpenBeforeTheCheckProtects(job, pc, Exec(db, w), events[1..]);
      }
    }
  }

  lemma OwnStepKeepsTasks(job: Job, pc: Pc, db: Db)
    ensures OwnStep(job, pc, db).tasks == db.tasks
  {
  }

  lemma OneWriteKeepsTheQuestion(db: Db, w: Write, runId: RunId)
    requires HasOpenTask(db.tasks, runId, true) && !Closes(w)
    ensures HasOpenTask(Exec(db, w).tasks, runId, true)
  {
    QuestionStaysOpen(db, [w], runId, true);
    assert [w][1..] == [];
    assert History(db, [w]) == History(Exec(db, w), []);
  }

  /** The last statement of an exit turned the run to failed while a blocking question of it was open. */
  predicate FailedOverAQuestion(before: Db, after: Db, runId: RunId) {
    && runId < |before.runs| && runId < |after.runs|
    && !before.runs[runId].status.Failed? && after.runs[runId].status.Failed?
    && HasOpenTask(after.tasks, runId, true)
  }

  /**
   * Exactly when a silently completed run is failed over a question, with any writes of others in the gaps:
   * none was open at the check, one is open at the fail-closed statement, and the run is still running there.
   */
  lemma FailedOverAQuestionIff(job: Job, db: Db, others: seq<seq<Write>>)
    requires |others| == 3 && IndexHolds(db.runs) && job.exit.Completed? && job.OwnedByCallbacks()
    requires job.runId < |db.runs|
    ensures var checked := History(History(db, others[0]), others[1]);
            var acting := History(checked, others[2]);
            FailedOverAQuestion(acting, Trace(job, Start, db, Schedule(others)).1, job.runId)
            <==> && !HasOpenTask(checked.tasks, job.runId, true) && HasOpenTask(acting.tasks, job.runId, true)
                 && job.runId < |acting.runs| && acting.runs[job.runId].status.Running?
  {
    var entered := History(db, others[0]);
    var checked := History(entered, others[1]);
    var acting := History(checked, others[2]);
    ScheduleUnrolls(job, db, others);
    AskedSteps(job, checked, others[2]);
    IndexSurvives(db, others[0]);
    IndexSurvives(entered, others[1]);
    IndexSurvives(checked, others[2]);
    HistoryEvolves(db, others[0], job.runId);
    HistoryEvolves(entered, others[1], job.runId);
    HistoryEvolves(checked, others[2], job.runId);
    ViolationIsDoubleBooking(acting, UpdateRun(job.runId, FailIfStillRunning));
    ViolationIsDoubleBooking(acting, UpdateRun(job.runId, ParkIfStillRunning));
  }

  lemma IndexSurvives(db: Db, ws: seq<Write>)
    requires IndexHolds(db.runs)
    ensures IndexHolds(History(db, ws).runs)
  {
    OneActiveRunPerSlot(db, ws, OfTicket(0));
  }

  /** The two states an attempt acts in: its first statement in one, its second in the other. */
  function FirstState(db: Db, others: seq<seq<Write>>): Db
    requires |others| == 3
  {
    History(History(db, others[0]), others[1])
  }

  function SecondState(job: Job, db: Db, others: seq<seq<Write>>): Db
    requires |others| == 3
  {
    History(OwnStep(job, Branch(job), FirstState(db, others)), others[2])
  }

  /** A statement of the attempt closes an active run over an open question. */
  predicate Strands(before: Db, after: Db, runId: RunId) {
    && runId < |before.runs| && runId < |after.runs|
    && before.runs[runId].Active() && !after.runs[runId].Active()
    && HasOpenTask(after.tasks, runId, true)
  }

  /** The attempt strands a question by one of its own statements. */
  predicate AttemptStrands(job: Job, db: Db, others: seq<seq<Write>>)
    requires |others| == 3
  {
    var first, second := FirstState(db, others), SecondState(job, db, others);
    || Strands(first, OwnStep(job, Branch(job), first), job.runId)
    || Strands(second, OwnStep(job, Next(job, Branch(job), first), second), job.runId)
  }

  /** The first statement of the attempt ends every run its guard admits; only a retry, a parking report and a rate limit do not. */
  predicate Ending(job: Job) {
    match job.exit
    case Completed => EndsWide(job) && (WideReport(job).Some? ==> !ReportStatus(WideReport(job).value).AwaitingHuman?)
    case TimedOutExit => WideReport(job).Some? ==> !ReportStatus(WideReport(job).value).AwaitingHuman?
    case Crashed => job.attemptsMade + 1 >= job.maxAttempts
    case CancelledExit => true
    case RateLimited => false
  }

  /** The guard of that statement: active with the wide one, else running. */
  predicate Admitted(job: Job, r: Run) {
    if EndsWide(job) then r.Active() else r.status.Running?
  }

  predicate Silent(job: Job) {
    job.exit.Completed? && job.OwnedByCallbacks()
  }

  /** A report returned without the callback channel, whose inserts throw after it has been written. */
  predicate Throws(job: Job, r: Run) {
    job.exit.Completed? && !job.callback && job.report.Some? && job.effectsFail && r.Active()
  }

  /**
   * Exactly when an attempt of any kind closes its run over an open question, with any writes of others in the gaps.
   * Only a silent exit looks for one. Every other exit does so exactly when its first statement ends the
   * run and one is open there, or when the report it returned throws and one is open as the run is failed for it.
   */
  lemma AttemptStrandsIff(job: Job, db: Db, others: seq<seq<Write>>)
    requires |others| == 3 && IndexHolds(db.runs) && job.runId < |db.runs|
    ensures Trace(job, Start, db, Schedule(others)).1 ==
            OwnStep(job, Next(job, Branch(job), FirstState(db, others)), SecondState(job, db, others))
    ensures var id, first, second := job.runId, FirstState(db, others), SecondState(job, db, others);
            && id < |first.runs| && id < |second.runs|
            && (AttemptStrands(job, db, others) <==>
                  if Silent(job) then
                    && !HasOpenTask(first.tasks, id, true) && HasOpenTask(second.tasks, id, true)
                    && second.runs[id].status.Running?
                  else
                    || (Ending(job) && Admitted(job, first.runs[id]) && HasOpenTask(first.tasks, id, true))
                    || (Throws(job, first.runs[id]) && second.runs[id].Active() && HasOpenTask(second.tasks, id, true)))
  {
    ScheduleUnrolls(job, db, others);
    StatesOfAttempt(job, db, others);
    FirstStatementStrandsIff(job, FirstState(db, others));
    SecondStatementStrandsIff(job, FirstState(db, others), SecondState(job, db, others));
  }

  lemma StatesOfAttempt(job: Job, db: Db, others: seq<seq<Write>>)
    requires |others| == 3 && IndexHolds(db.runs) && job.runId < |db.runs|
    ensures var first, second := FirstState(db, others), SecondState(job, db, others);
            && IndexHolds(first.runs) && IndexHolds(second.runs) && job.runId < |first.runs| && job.runId < |second.runs|
            && (!OwnStep(job, Branch(job), first).runs[job.runId].Live() ==> !second.runs[job.runId].Live())
            && (first.runs[job.runId].Live() || !second.runs[job.runId].Live())
  {
    var entered, first := History(db, others[0]), FirstState(db, others);
    IndexSurvives(db, others[0]);
    IndexSurvives(entered, others[1]);
    HistoryEvolves(db, others[0], job.runId);
    HistoryEvolves(entered, others[1], job.runId);
    if OwnUpdate(job, Branch(job)).Some? {
      StepEvolves(first, UpdateRun(job.runId, OwnUpdate(job, Branch(job)).value), job.runId);
    }
    IndexSurvives(OwnStep(job, Branch(job), first), others[2]);
    HistoryEvolves(OwnStep(job, Branch(job), first), others[2], job.runId);
  }

  lemma FirstStatementStrandsIff(job: Job, db: Db)
    requires IndexHolds(db.runs) && job.runId < |db.runs|
    ensures Strands(db, OwnStep(job, Branch(job), db), job.runId)
            <==> !Silent(job) && Ending(job) && Admitted(job, db.runs[job.runId]) && HasOpenTask(db.tasks, job.runId, true)
  {
    OwnStepKeepsTasks(job, Branch(job), db);
    if OwnUpdate(job, Branch(job)).Some? {
      ViolationIsDoubleBooking(db, UpdateRun(job.runId, OwnUpdate(job, Branch(job)).value));
    }
  }

  lemma SecondStatementStrandsIff(job: Job, first: Db, second: Db)
    requires IndexHolds(second.runs) && job.runId < |first.runs| && job.runId < |second.runs|
    requires first.runs[job.runId].Live() || !second.runs[job.runId].Live()
    ensures Strands(second, OwnStep(job, Next(job, Branch(job), first), second), job.runId)
            <==> if Silent(job) then
                   && !HasOpenTask(first.tasks, job.runId, true) && HasOpenTask(second.tasks, job.runId, true)
                   && second.runs[job.runId].status.Running?
                 else Throws(job, first.runs[job.runId]) && second.runs[job.runId].Active() && HasOpenTask(second.tasks, job.runId, true)
  {
    var pc := Next(job, Branch(job), first);
    OwnStepKeepsTasks(job, pc, second);
    if OwnUpdate(job, pc).Some? {
      ViolationIsDoubleBooking(second, UpdateRun(job.runId, OwnUpdate(job, pc).value));
    }
  }

  /**
   * It happens: the exit path finds no question, the request inserts its own before it parks, and the run is
   * failed. The park then misses, and resuming the question later finds no parked run.
   */
  lemma AQuestionBetweenCheckAndFailIsLost(job: Job, db: Db, resume: Write)
    requires IndexHolds(db.runs) && job.exit.Completed? && job.OwnedByCallbacks()
    requires job.runId < |db.runs| && db.runs[job.runId].status.Running? && !HasOpenTask(db.tasks, job.runId, true)
    requires resume.ResumeRun? && resume.parked == job.runId
    ensures var question := Question(db.runs[job.runId], job.runId, true);
            var end := Trace(job, Start, db, [Own, Own, Other(question), Own]).1;
            && end.runs == db.runs[job.runId := db.runs[job.runId].(status := Failed)]
            && HasOpenTask(end.tasks, job.runId, true)
            && Exec(end, UpdateRun(job.runId, ParkIfStillRunning)) == end && Exec(end, resume) == end
  {
    var question := Question(db.runs[job.runId], job.runId, true);
    var events := [Own, Own, Other(question), Own];
    var asked := Exec(db, question);
    var fail := UpdateRun(job.runId, FailIfStillRunning);
    ViolationIsDoubleBooking(db, question);
    ViolationIsDoubleBooking(asked, fail);
    assert events[1..] == [Own, Other(question), Own] && events[1..][1..] == [Other(question), Own];
    assert [Other(question), Own][1..] == [Own] && [Own][1..] == [];
    assert Branch(job) == CheckTask && Next(job, CheckTask, db) == FailClosed;
    var end := Exec(asked, fail);
    assert Trace(job, FailClosed, asked, [Own]) == Trace(job, Done, end, []);
    assert Trace(job, FailClosed, db, [Other(question), Own]) == Trace(job, FailClosed, asked, [Own]);
    assert Trace(job, CheckTask, db, events[1..]) == Trace(job, FailClosed, db, [Other(question), Own]);
    assert Trace(job, Start, db, events) == Trace(job, CheckTask, db, events[1..]);
    assert end.tasks[|db.tasks|] == question.task;
  }

  // ---------- duplicates ----------

  /** An insert keeps one open task per kind exactly when none of that run and kind is open as it lands. */
  lemma InsertKeepsOneOpenIff(tasks: seq<Task>, runId: RunId, ticket: Option<TicketId>, blocking: bool)
    requires OneOpenPerKind(tasks)
    ensures OneOpenPerKind(tasks + [Task(Some(runId), ticket, blocking, true)]) <==> !HasOpenTask(tasks, runId, blocking)
  {
    var more := tasks + [Task(Some(runId), ticket, blocking, true)];
    if HasOpenTask(tasks, runId, blocking) {
      var t :| 0 <= t < |tasks| && tasks[t].run == Some(runId) && tasks[t].open && tasks[t].blocking == blocking;
      assert more[t] == tasks[t] && more[|tasks|].open;
    }
  }

  /** Others ask nothing of this kind for this run: then the duplicate check still holds at the insert. */
  lemma {:induction false} NobodyElseAsks(db: Db, ws: seq<Write>, runId: RunId, blocking: bool)
    requires !HasOpenTask(db.tasks, runId, blocking) && forall i | 0 <= i < |ws| :: !Asks(ws[i], runId, blocking)
    ensures !HasOpenTask(History(db, ws).tasks, runId, blocking)
    decreases |ws|
  {
    if ws != [] {
      var next := Exec(db, ws[0]);
      forall t | 0 <= t < |next.tasks|
        ensures !(next.tasks[t].run == Some(runId) && next.tasks[t].open && next.tasks[t].blocking == blocking)
      {
        if t < |db.tasks| {
          assert next.tasks[t] == db.tasks[t] || !next.tasks[t].open;
        } else {
          assert ws[0].InsertTask? && next.tasks[t] == ws[0].task.(open := true);
        }
      }
      NobodyElseAsks(next, ws[1..], runId, blocking);
    }
  }

  /**
   * Exactly when a request leaves a second open task of its kind: it was no duplicate at its check, and a
   * rival's task of that run and kind is open as its own insert lands.
   */
  lemma SecondTaskIff(db: Db, runId: RunId, blocking: bool, others: seq<seq<Write>>)
    requires |others| == 4 && IndexHolds(db.runs) && runId < |History(db, others[0]).runs|
    requires OneOpenPerKind(History(History(db, others[0]), others[1]).tasks)
    requires OneOpenPerKind(History(History(History(db, others[0]), others[1]), others[2]).tasks)
    ensures var checked := History(History(db, others[0]), others[1]);
            !OneOpenPerKind(Landed(db, runId, blocking, others).tasks)
            <==> !HasOpenTask(checked.tasks, runId, blocking) && HasOpenTask(History(checked, others[2]).tasks, runId, blocking)
  {
    var read := History(db, others[0]);
    var checked := History(read, others[1]);
    IndexSurvives(db, others[0]);
    IndexSurvives(read, others[1]);
    IndexSurvives(checked, others[2]);
    ViolationIsDoubleBooking(History(checked, others[2]), Question(read.runs[runId], runId, blocking));
    InsertKeepsOneOpenIff(History(checked, others[2]).tasks, runId, read.runs[runId].ticket, blocking);
  }

  /** No rival of the same run and kind between check and insert: no second task. */
  lemma UncontestedRequestOpensNoSecondTask(db: Db, runId: RunId, blocking: bool, others: seq<seq<Write>>)
    requires |others| == 4 && IndexHolds(db.runs) && runId < |History(db, others[0]).runs|
    requires OneOpenPerKind(History(History(db, others[0]), others[1]).tasks)
    requires OneOpenPerKind(History(History(History(db, others[0]), others[1]), others[2]).tasks)
    requires forall i | 0 <= i < |others[2]| :: !Asks(others[2][i], runId, blocking)
    ensures OneOpenPerKind(Landed(db, runId, blocking, others).tasks)
  {
    var checked := History(History(db, others[0]), others[1]);
    SecondTaskIff(db, runId, blocking, others);
    if !HasOpenTask(checked.tasks, runId, blocking) {
      NobodyElseAsks(checked, others[2], runId, blocking);
    }
  }

  /**
   * Two overlapping requests: both check before either inserts. Alone, the rival opens the one task; its
   * insert in the gap of the other makes two.
   */
  lemma OverlappingRequestsOpenTwoTasks(db: Db, runId: RunId, blocking: bool)
    requires IndexHolds(db.runs) && runId < |db.runs|
    requires OneOpenPerKind(db.tasks) && !HasOpenTask(db.tasks, runId, blocking)
    ensures var question := Question(db.runs[runId], runId, blocking);
            && Landed(db, runId, blocking, [[], [], [], []]) == Exec(db, question)
            && OneOpenPerKind(Exec(db, question).tasks)
            && !OneOpenPerKind(Landed(db, runId, blocking, [[], [], [question], []]).tasks)
  {
    var question := Question(db.runs[runId], runId, blocking);
    var rivals := [[], [], [question], []];
    ViolationIsDoubleBooking(db, question);
    InsertKeepsOneOpenIff(db.tasks, runId, db.runs[runId].ticket, blocking);
    assert [question][1..] == [] && History(db, [question]) == Exec(db, question);
    assert Exec(db, question).tasks[|db.tasks|] == question.task;
    SecondTaskIff(db, runId, blocking, rivals);
  }

  /** A request on its own: one new open task on the run's ticket unless one of its kind is open, and a running run parked if it blocks. */
  lemma UndisturbedRequest(db: Db, runId: RunId, blocking: bool)
    requires IndexHolds(db.runs) && runId < |db.runs|
    ensures var end := Requested(db, runId, blocking, [[], [], [], []]);
            var duplicate := exists t | 0 <= t < |db.tasks| ::
              db.tasks[t].run == Some(runId) && db.tasks[t].open && db.tasks[t].blocking == blocking;
            && end.tasks == (if duplicate then db.tasks else db.tasks + [Task(Some(runId), db.runs[runId].ticket, blocking, true)])
            && end.runs ==
                 if blocking && db.runs[runId].status == Running then db.runs[runId := db.runs[runId].(status := AwaitingHuman)]
                 else db.runs
  {
    var question := Question(db.runs[runId], runId, blocking);
    var asked := Exec(db, question);
    var park := UpdateRun(runId, ParkIfStillRunning);
    ViolationIsDoubleBooking(db, question);
    ViolationIsDoubleBooking(db, park);
    ViolationIsDoubleBooking(asked, park);
  }

  datatype Answer = RunNotFound | Asked(created: bool, mayFinishWithoutComplete: bool)

  class HumanTaskService {
    const store: Store

    constructor (store: Store)
      ensures this.store == store
    {
      this.store := store;
    }

    method CreateFromRequest(runId: RunId, blocking: bool, others: seq<seq<Write>>) returns (answer: Answer)
      requires store.Valid() && |others| == 4
      modifies store
      ensures store.Valid()
      ensures answer.RunNotFound? <==> |History(old(store.Snapshot()), others[0]).runs| <= runId
      ensures store.Snapshot() == Requested(old(store.Snapshot()), runId, blocking, others)
      ensures answer.Asked? ==>
        && answer.mayFinishWithoutComplete == blocking
        && answer.created == !HasOpenTask(History(History(old(store.Snapshot()), others[0]), others[1]).tasks, runId, blocking)
      ensures answer.Asked? ==>
        var checked := History(History(old(store.Snapshot()), others[0]), others[1]);
        answer.created <==>
          !exists t | 0 <= t < |checked.tasks| ::
            checked.tasks[t].run == Some(runId) && checked.tasks[t].open && checked.tasks[t].blocking == blocking
      // After a blocking request the run no longer runs: it is parked, or someone else has settled it.
      ensures answer.Asked? && blocking ==> runId < |store.runs| && !store.runs[runId].status.Running?
    {
      if blocking && runId < |History(store.Snapshot(), others[0]).runs| {
        BlockingRequestStopsTheRun(store.Snapshot(), runId, others);
      }
      store.Others(others[0]);
      if |store.runs| <= runId {
        return RunNotFound;
      }
      var run := store.runs[runId];
      store.Others(others[1]);
      var existing := exists t | 0 <= t < |store.tasks| ::
        store.tasks[t].run == Some(runId) && store.tasks[t].open && store.tasks[t].blocking == blocking;
      if existing {
        if blocking {
          store.Others(others[2]);
          var parked := store.ParkIfStillRunning(runId);
        }
        return Asked(false, blocking);
      }
      store.Others(others[2]);
      store.AddTask(Task(Some(runId), run.ticket, blocking, true));
      if !blocking {
        return Asked(true, false);
      }
      store.Others(others[3]);
      var parked := store.ParkIfStillRunning(runId);
      answer := Asked(true, true);
    }
  }
}
